/** The bytes a connection writes parse back to its responses, in request order. */
module Http1ReadBack {
  import opened Text
  import opened Http1Wire
  import opened Http1Spec
  import opened Http1Pipeline
  import opened Http1Runs

  // ---------- which framing the headers choose ----------

  function Lowered(hs: seq<Field>): (r: seq<Field>)
    ensures |r| == |hs|
  {
    seq(|hs|, i requires 0 <= i < |hs| => Field(Lower(hs[i].name), hs[i].value))
  }

  /** Some transfer-encoding value is "chunked", in any case. */
  predicate HasChunked(values: seq<Bytes>) {
    exists i :: 0 <= i < |values| && Lower(values[i]) == "chunked"
  }

  function InitialScan(keepAlive: bool): Scan { Scan(None, 0, keepAlive, false, [], false) }

  /** What the header loop has found, in terms of the headers alone. */
  lemma {:induction false} ScanFinds(keepAlive: bool, hs: seq<Field>)
    ensures var sc := ScanFields(InitialScan(keepAlive), hs);
            var codings, lengths := ValuesOf(hs, "transfer-encoding"), ValuesOf(hs, "content-length");
            !sc.failed ==>
              && sc.fields == Lowered(hs)
              && (forall i :: 0 <= i < |hs| ==> ValidField(hs[i]))
              && (sc.chunked == Some(true) <==> HasChunked(codings))
              && (sc.chunked.None? <==> !HasChunked(codings) && lengths == [])
              && (sc.chunked == Some(false) ==> PyInt(lengths[0]) == Some(sc.remaining))
  {
    hide PyInt, ValidField, HasToken;
    if hs != [] {
      var front, h := hs[..|hs| - 1], hs[|hs| - 1];
      ScanFinds(keepAlive, front);
      LoweredOne(front, h);
      assert front + [h] == hs;
      HasChunkedOne(ValuesOf(front, "transfer-encoding"), h.value);
    }
  }

  lemma LoweredOne(hs: seq<Field>, h: Field)
    ensures Lowered(hs + [h]) == Lowered(hs) + [Field(Lower(h.name), h.value)]
  {
  }

  lemma HasChunkedOne(values: seq<Bytes>, v: Bytes)
    ensures HasChunked(values + [v]) <==> HasChunked(values) || Lower(v) == "chunked"
    ensures values + [] == values
  {
    hide Lower;
    var all := values + [v];
    if HasChunked(values) {
      var i :| 0 <= i < |values| && Lower(values[i]) == "chunked";
      assert all[i] == values[i];
    }
    assert all[|values|] == v;
  }

  // ---------- the reader's view of the same headers ----------

  function Stripped(values: seq<Bytes>): (r: seq<Bytes>)
    ensures |r| == |values|
  {
    seq(|values|, i requires 0 <= i < |values| => Strip(values[i], IsOws))
  }

  /** Lower-casing names and stripping blanks commutes with looking fields up. */
  lemma {:induction false} SeenValues(hs: seq<Field>, name: Bytes)
    ensures ValuesOf(AllSeen(hs), name) == Stripped(ValuesOf(hs, name))
    ensures ValuesOf(AllSeen(Lowered(hs)), name) == Stripped(ValuesOf(hs, name))
  {
    hide Lower, Strip;
    if hs != [] {
      var front, h := hs[..|hs| - 1], hs[|hs| - 1];
      SeenValues(front, name);
      assert AllSeen(hs)[..|hs| - 1] == AllSeen(front);
      assert AllSeen(Lowered(hs))[..|hs| - 1] == AllSeen(Lowered(front));
      LowerOfLower(h.name);
      StrippedOne(ValuesOf(front, name), h.value);
    }
  }

  lemma StrippedOne(values: seq<Bytes>, v: Bytes)
    ensures Stripped(values + [v]) == Stripped(values) + [Strip(v, IsOws)]
    ensures values + [] == values && Stripped(values) + [] == Stripped(values)
  {
  }

  lemma ValuesOfOne(fs: seq<Field>, f: Field, name: Bytes)
    ensures ValuesOf(fs + [f], name) == ValuesOf(fs, name) + (if Lower(f.name) == name then [f.value] else [])
  {
    assert (fs + [f])[..|fs|] == fs;
  }

  lemma AllSeenOne(fs: seq<Field>, f: Field)
    ensures AllSeen(fs + [f]) == AllSeen(fs) + [Seen(f)] && AllSeen(fs + []) == AllSeen(fs)
  {
    assert fs + [] == fs;
  }

  lemma OwnFields()
    ensures Seen(CLOSE_FIELD) == CLOSE_FIELD && Lower(CLOSE_FIELD.name) == "connection"
    ensures Seen(CHUNKED_FIELD) == CHUNKED_FIELD && Lower(CHUNKED_FIELD.name) == "transfer-encoding"
    ensures Lower("chunked") == "chunked" && NonEmpty(Split(CHUNKED_FIELD.value, ',')) == ["chunked"]
  {
    StripsNothing("close", IsOws);
    StripsNothing("chunked", IsOws);
    assert Lower("connection") == "connection";
    assert Lower("transfer-encoding") == "transfer-encoding";
    assert Lower("chunked") == "chunked";
    NoComma("chunked");
    assert NonEmpty([]) == [];
    assert ["chunked"][1..] == [];
  }

  lemma NoComma(s: Bytes)
    requires ',' !in s
    ensures Split(s, ',') == [s]
  {
    if s != "" {
      NoComma(s[1..]);
      assert [s[0]] + s[1..] == s;
    }
  }

  /** The reader's header fields are the application's, and the two the server may add. */
  lemma ReaderValues(sc: Scan, input: seq<Field>, closes: bool, chunks: bool)
    requires sc.fields == Lowered(input)
    ensures var seen := AllSeen(sc.fields + (if closes then [CLOSE_FIELD] else [])
                                          + (if chunks then [CHUNKED_FIELD] else []));
            && ValuesOf(seen, "content-length") == Stripped(ValuesOf(input, "content-length"))
            && ValuesOf(seen, "transfer-encoding") == Stripped(ValuesOf(input, "transfer-encoding"))
                 + (if chunks then ["chunked"] else [])
  {
    hide Lower, Strip, AllSeen, ValuesOf, Stripped, Lowered;
    SeenValues(input, "content-length");
    SeenValues(input, "transfer-encoding");
    OwnFields();
    var f1 := sc.fields + (if closes then [CLOSE_FIELD] else []);
    AddField(sc.fields, CLOSE_FIELD, closes, "content-length");
    AddField(sc.fields, CLOSE_FIELD, closes, "transfer-encoding");
    AddField(f1, CHUNKED_FIELD, chunks, "content-length");
    AddField(f1, CHUNKED_FIELD, chunks, "transfer-encoding");
    var te := ValuesOf(AllSeen(sc.fields), "transfer-encoding");
    assert te + [] == te;
  }

  lemma AddField(fs: seq<Field>, f: Field, add: bool, name: Bytes)
    requires Seen(f) == f
    ensures ValuesOf(AllSeen(fs + (if add then [f] else [])), name)
         == ValuesOf(AllSeen(fs), name) + (if add && Lower(f.name) == name then [f.value] else [])
  {
    hide Lower, Seen;
    AllSeenOne(fs, f);
    ValuesOfOne(AllSeen(fs), f, name);
    var vs := ValuesOf(AllSeen(fs), name);
    assert vs + [] == vs;
  }

  /** The framing that `send` will use for the body. */
  predicate Uses(framing: Framing, a: Accepted) {
    match framing
    case Chunked => a.chunked == Some(true)
    case Length(n) => a.chunked == Some(false) && n == a.declared
    case _ => false
  }

  /** What the application can check of its headers beforehand: if one of them is recognised as "chunked",
      it must be the last and only chunked coding; if not, a content-length must be a single plain numeral
      and stand without any transfer coding; with neither, no coding may be "chunked". */
  predicate CleanHeaders(hs: seq<Field>) {
    var codings := Codings(ValuesOf(AllSeen(hs), "transfer-encoding"));
    var lengths := ValuesOf(AllSeen(hs), "content-length");
    if HasChunked(ValuesOf(hs, "transfer-encoding")) then
      codings != [] && codings[|codings| - 1] == "chunked" && multiset(codings)["chunked"] == 1
    else if lengths != [] then
      codings == [] && |lengths| == 1 && lengths[0] != "" && AllDigits(lengths[0])
    else "chunked" !in codings
  }

  /** What StartOk and the header loop say together. */
  lemma StartFacts(a: Accepted)
    requires StartOk(false, a) && !BodylessStatus(a.status)
    ensures var sc := ScanFields(InitialScan(a.keepAlive), a.input);
            var te, cl := ValuesOf(a.input, "transfer-encoding"), ValuesOf(a.input, "content-length");
            && sc.fields == Lowered(a.input)
            && (forall i :: 0 <= i < |a.input| ==> ValidField(a.input[i]))
            && (DefaultsToChunked(false, a.status, sc) <==> sc.chunked.None?)
            && (sc.chunked.None? <==> !HasChunked(te) && cl == [])
            && (!HasChunked(te) && cl != [] ==> PyInt(cl[0]) == Some(a.declared))
            && a.chunked == Some(HasChunked(te) || cl == [])
  {
    hide Lower, Strip, AllSeen, ValuesOf, Stripped, Lowered, PyInt, ValidField, HasToken, ScanFields, Head, OneLine;
    ScanFinds(a.keepAlive, a.input);
    var sc := ScanFields(InitialScan(a.keepAlive), a.input);
    assert sc.chunked.None? || sc.chunked.value == true || sc.chunked.value == false;
    if sc.chunked.Some? { assert sc.chunked == Some(sc.chunked.value); }
  }

  /** The framing a client derives from the head is the one the server uses for the body
      if and only if the headers are clean. */
  lemma FramingAgrees(a: Accepted)
    requires StartOk(false, a) && !BodylessStatus(a.status)
    ensures var sc := ScanFields(InitialScan(a.keepAlive), a.input);
            Uses(FramingOf(false, a.status, AllSeen(HeadFields(false, a.status, sc))), a) <==> CleanHeaders(a.input)
  {
    hide Lower, Strip, AllSeen, ValuesOf, Stripped, Lowered, PyInt, ValidField, ScanFields, StartOk, Split, NonEmpty,
         Codings, HasChunked, DefaultsToChunked;
    var sc := ScanFields(InitialScan(a.keepAlive), a.input);
    StartFacts(a);
    ReaderValues(sc, a.input, !sc.keepAlive && !sc.closeSeen, sc.chunked.None?);
    SeenValues(a.input, "content-length");
    SeenValues(a.input, "transfer-encoding");
    OwnFields();
    var te, lengths := ValuesOf(AllSeen(a.input), "transfer-encoding"), ValuesOf(AllSeen(a.input), "content-length");
    StrippedLength(ValuesOf(a.input, "content-length"));
    CodingsOne(te, "chunked");
    var codings := Codings(te);
    assert multiset(codings + ["chunked"])["chunked"] == multiset(codings)["chunked"] + 1;
    if |lengths| == 1 && lengths[0] != "" && AllDigits(lengths[0]) { LengthReadAlike(a.input); }
    assert te + [] == te;
    var f := FramingOf(false, a.status, AllSeen(HeadFields(false, a.status, sc)));
    if lengths != [] && !HasChunked(ValuesOf(a.input, "transfer-encoding")) {
      assert Uses(f, a) <==> f.Length? && f.n == a.declared;
    } else {
      assert Uses(f, a) <==> f == Chunked;
    }
  }

  lemma StrippedLength(values: seq<Bytes>)
    ensures |Stripped(values)| == |values|
  {
  }

  lemma CodingsOne(values: seq<Bytes>, v: Bytes)
    ensures Codings(values + [v]) == Codings(values) + NonEmpty(Split(v, ','))
  {
    assert (values + [v])[..|values|] == values;
  }

  /** On a valid field value, `int` reads what a client reads, if the client reads a numeral at all. */
  lemma LengthReadAlike(hs: seq<Field>)
    requires forall i :: 0 <= i < |hs| ==> ValidField(hs[i])
    requires var seen := ValuesOf(AllSeen(hs), "content-length");
             |seen| > 0 && seen[0] != "" && AllDigits(seen[0])
    ensures |ValuesOf(hs, "content-length")| > 0
    ensures PyInt(ValuesOf(hs, "content-length")[0]) == Some(DecimalValue(ValuesOf(AllSeen(hs), "content-length")[0]))
  {
    var raw, seen := ValuesOf(hs, "content-length"), ValuesOf(AllSeen(hs), "content-length");
    SeenValues(hs, "content-length");
    assert seen[0] == Strip(raw[0], IsOws);
    ValuesAreValid(hs, "content-length");
    SameStrip(raw[0]);
    StripsNothing(seen[0], IsTextSpace);
    PyIntOfDigits(seen[0]);
  }

  predicate ValidValue(v: Bytes) { forall i :: 0 <= i < |v| ==> ValueChar(v[i]) }

  lemma {:induction false} ValuesAreValid(hs: seq<Field>, name: Bytes)
    requires forall i :: 0 <= i < |hs| ==> ValidField(hs[i])
    ensures forall i :: 0 <= i < |ValuesOf(hs, name)| ==> ValidValue(ValuesOf(hs, name)[i])
  {
    if hs != [] { ValuesAreValid(hs[..|hs| - 1], name); }
  }

  /** In a valid field value the only white space is the optional white space of the grammar. */
  lemma SameStrip(v: Bytes)
    requires ValidValue(v)
    ensures Strip(v, IsTextSpace) == Strip(v, IsOws)
  {
    SameStripLeft(v);
    SameStripRight(StripLeft(v, IsOws));
  }

  lemma {:induction false} SameStripLeft(v: Bytes)
    requires ValidValue(v)
    ensures StripLeft(v, IsTextSpace) == StripLeft(v, IsOws) && ValidValue(StripLeft(v, IsOws))
  {
    if v != "" { assert ValueChar(v[0]); SameStripLeft(v[1..]); }
  }

  lemma {:induction false} SameStripRight(v: Bytes)
    requires ValidValue(v)
    ensures StripRight(v, IsTextSpace) == StripRight(v, IsOws)
  {
    if v != "" { assert ValueChar(v[|v| - 1]); SameStripRight(v[..|v| - 1]); }
  }

  // ---------- headers on which they differ ----------

  /** A start message on a fresh cycle, whose headers the header loop accepts. */
  lemma StartIsAccepted(keepAlive: bool, status: nat, reason: Bytes, hs: seq<Field>)
    requires 100 <= status < 600 && OneLine(reason) && !ScanFields(InitialScan(keepAlive), hs).failed
    ensures var c := Send(NewCycle([], false, keepAlive, false), ResponseStart(status, reason, hs)).cycle;
            var sc := ScanFields(InitialScan(keepAlive), hs);
            && CycleOk(c, true) && c.started && !c.complete && !c.disconnected && !c.isHead && c.bodies == []
            && c.chunked == (if DefaultsToChunked(false, status, sc) then Some(true) else sc.chunked)
            && c.remaining == sc.remaining && c.accepted.Some?
            && c.accepted.value.input == hs && c.accepted.value.status == status
  {
    var c0 := NewCycle([], false, keepAlive, false);
    NewCycleOk([], false, keepAlive, false);
    SendOk(c0, ResponseStart(status, reason, hs), true);
    hide CycleOk, Head, HeadFields, OneLine, ScanFields;
    assert [] + hs == hs;
  }

  lemma ResponseOf(c: Cycle)
    requires CycleOk(c, true)
    ensures ResponseOk(c)
  {
  }

  /** Two lengths, of which the server uses the first. */
  const TWO_LENGTHS := [Field("content-length", "1"), Field("content-length", "2")]

  lemma OneLength(keepAlive: bool)
    ensures var h := Field("content-length", "1");
            ScanFields(InitialScan(keepAlive), [h]) == Scan(Some(false), 1, keepAlive, false, [h], false)
  {
    hide PyInt, HasToken, ValidField, Lower;
    var h := Field("content-length", "1");
    LengthsAreValid();
    assert [h][..0] == [] && [] + [h] == [h];
  }

  /** Letters and hyphens make valid field names, and with digits valid values. */
  predicate PlainChar(c: char) { 'a' <= c <= 'z' || '0' <= c <= '9' || c == '-' }

  lemma PlainFieldIsValid(f: Field)
    requires (forall i :: 0 <= i < |f.name| ==> PlainChar(f.name[i]))
    requires (forall i :: 0 <= i < |f.value| ==> PlainChar(f.value[i]))
    ensures ValidField(f)
  {
    forall c: char | PlainChar(c) ensures NameChar(c) && ValueChar(c) { PlainCharIsValid(c); }
  }

  lemma PlainCharIsValid(c: char)
    requires PlainChar(c)
    ensures NameChar(c) && ValueChar(c)
  {
  }

  lemma LengthsAreValid()
    ensures ValidField(TWO_LENGTHS[0]) && ValidField(TWO_LENGTHS[1]) && Lower("content-length") == "content-length"
    ensures PyInt("1") == Some(1)
  {
    hide ValidField, NameChar;
    PlainFieldIsValid(TWO_LENGTHS[0]);
    PlainFieldIsValid(TWO_LENGTHS[1]);
    PyIntOfDigits("1");
    assert "1"[..0] == "";
  }

  lemma ScanOfLengths(keepAlive: bool)
    ensures ScanFields(InitialScan(keepAlive), TWO_LENGTHS)
         == Scan(Some(false), 1, keepAlive, false, TWO_LENGTHS, false)
  {
    hide PyInt, HasToken, ValidField, Lower;
    OneLength(keepAlive);
    LengthsAreValid();
    assert TWO_LENGTHS[..1] == [TWO_LENGTHS[0]] && [TWO_LENGTHS[0]] + [TWO_LENGTHS[1]] == TWO_LENGTHS;
  }

  /** A client sees both. */
  lemma NoOneLength(keepAlive: bool)
    ensures var sc := ScanFields(InitialScan(keepAlive), TWO_LENGTHS);
            FramingOf(false, 200, AllSeen(HeadFields(false, 200, sc))) == Invalid
    ensures !CleanHeaders(TWO_LENGTHS)
  {
    hide Lower, Strip, AllSeen, Stripped, Lowered, ScanFields, ValidField, PyInt;
    ScanOfLengths(keepAlive);
    var sc := ScanFields(InitialScan(keepAlive), TWO_LENGTHS);
    LengthsAreValid();
    ScanFinds(keepAlive, TWO_LENGTHS);
    ReaderValues(sc, TWO_LENGTHS, !keepAlive, false);
    SeenValues(TWO_LENGTHS, "content-length");
    SeenValues(TWO_LENGTHS, "transfer-encoding");
    ValuesOfLengths();
  }

  lemma ValuesOfLengths()
    ensures ValuesOf(TWO_LENGTHS, "content-length") == ["1", "2"] && ValuesOf(TWO_LENGTHS, "transfer-encoding") == []
    ensures Stripped([]) == [] && |Stripped(["1", "2"])| == 2 && !HasChunked([])
  {
    hide Strip, Lower;
    LengthsAreValid();
    ValuesOfOne([], TWO_LENGTHS[0], "content-length");
    ValuesOfOne([], TWO_LENGTHS[0], "transfer-encoding");
    ValuesOfOne([TWO_LENGTHS[0]], TWO_LENGTHS[1], "content-length");
    ValuesOfOne([TWO_LENGTHS[0]], TWO_LENGTHS[1], "transfer-encoding");
    assert [] + [TWO_LENGTHS[0]] == [TWO_LENGTHS[0]] && [TWO_LENGTHS[0]] + [TWO_LENGTHS[1]] == TWO_LENGTHS;
  }

  /** `send` accepts them, uses the first, and no client can tell where the body ends. */
  lemma FramingCanDisagree(keepAlive: bool)
    ensures var c := Send(NewCycle([], false, keepAlive, false), ResponseStart(200, "OK", TWO_LENGTHS)).cycle;
            && c.accepted.Some?
            && var a := c.accepted.value; var sc := ScanFields(InitialScan(a.keepAlive), a.input);
               && StartOk(false, a) && a.status == 200 && a.chunked == Some(false) && a.declared == 1
               && FramingOf(false, 200, AllSeen(HeadFields(false, 200, sc))) == Invalid
               && !CleanHeaders(a.input)
  {
    hide CycleOk, SendStart, NewCycle, ScanFields, AllSeen, HeadFields, CleanHeaders, FramingOf, AcceptedOk, Head;
    ScanOfLengths(keepAlive);
    StartIsAccepted(keepAlive, 200, "OK", TWO_LENGTHS);
    var c := Send(NewCycle([], false, keepAlive, false), ResponseStart(200, "OK", TWO_LENGTHS)).cycle;
    ResponseOf(c);
    ScanOfLengths(c.accepted.value.keepAlive);
    NoOneLength(c.accepted.value.keepAlive);
  }

  // ---------- one response ----------

  predicate AllWritable(fs: seq<Field>) { forall i :: 0 <= i < |fs| ==> Writable(fs[i]) }

  lemma LoweredIsWritable(hs: seq<Field>)
    requires forall i :: 0 <= i < |hs| ==> ValidField(hs[i])
    ensures AllWritable(Lowered(hs))
  {
    forall i | 0 <= i < |hs| ensures Writable(Lowered(hs)[i]) {
      var f := hs[i];
      assert forall j :: 0 <= j < |f.name| ==> NameChar(f.name[j]);
      assert forall j :: 0 <= j < |f.value| ==> ValueChar(f.value[j]);
    }
  }

  /** The fields of the head that an accepted start message wrote. */
  function FieldsOf(c: Cycle, a: Accepted): seq<Field> {
    HeadFields(c.isHead, a.status, ScanFields(InitialScan(a.keepAlive), a.input))
  }

  lemma FieldsAreWritable(c: Cycle, a: Accepted)
    requires StartOk(c.isHead, a)
    ensures AllWritable(FieldsOf(c, a))
  {
    hide ScanFields, Lower, Lowered, ValidField, Head, OneLine, Writable, HasToken, PyInt, HasChunked, ValuesOf;
    ScanFinds(a.keepAlive, a.input);
    LoweredIsWritable(a.input);
    OwnWritable();
  }

  lemma OwnWritable()
    ensures Writable(CLOSE_FIELD) && Writable(CHUNKED_FIELD)
  {
  }

  /** Reading past the interim response and the head leaves the reader at the body. */
  lemma ReadHeadOf(c: Cycle, a: Accepted, rest: Bytes)
    requires StartOk(c.isHead, a) && AcceptedOk(c, a) && a.status >= 200
    ensures var fs := AllSeen(FieldsOf(c, a));
            var body := ReadBody(FramingOf(c.isHead, a.status, fs), Payload(c) + rest);
            ReadFinal(c.isHead, c.wire + rest) ==
              if body.None? then None else Some((Reply(a.status, fs, body.value.0), body.value.1))
  {
    hide ScanFields, HeadFields, AllSeen, FramingOf, ReadBody, Payload, ReadMessage, Head;
    FieldsAreWritable(c, a);
    var tail := Payload(c) + rest;
    ReadMessageOf(c.isHead, a.status, a.reason, FieldsOf(c, a), tail);
    assert c.wire + rest == Interim(c) + (a.head + tail);
    if c.continued {
      ReadPastContinue(c.isHead, a.head + tail);
    } else {
      Assoc(a.head + tail, "", "");
    }
  }

  /** Headers that call for no bytes after the head: none is recognised as "chunked", and the first content-length,
      if there is one, reads as zero. */
  predicate EmptyHeaders(hs: seq<Field>) {
    var codings, lengths := ValuesOf(hs, "transfer-encoding"), ValuesOf(hs, "content-length");
    !HasChunked(codings) && (lengths != [] ==> PyInt(lengths[0]) == Some(0))
  }

  /** What the header loop finds in them. */
  lemma EmptyFraming(a: Accepted)
    requires StartOk(false, a) && a.status in {204, 304}
    ensures a.chunked != Some(true) && a.declared == 0 <==> EmptyHeaders(a.input)
  {
    hide Lower, ValuesOf, Lowered, PyInt, ValidField, HasToken, ScanFields, Head, OneLine, HasChunked;
    ScanFinds(a.keepAlive, a.input);
    ScanFacts(InitialScan(a.keepAlive), a.input);
    var sc := ScanFields(InitialScan(a.keepAlive), a.input);
    assert sc.chunked.None? || sc.chunked.value == true || sc.chunked.value == false;
    if sc.chunked.Some? { assert sc.chunked == Some(sc.chunked.value); }
  }

  /** A status that forbids a body (204 or 304): the client reads the response and nothing is left over for it to
      misread if and only if the headers call for no bytes after the head. */
  lemma BodylessLeavesNothing(c: Cycle, rest: Bytes)
    requires ResponseOk(c) && c.complete && !c.isHead && c.accepted.Some?
    requires c.accepted.value.status in {204, 304}
    ensures var a := c.accepted.value;
            ReadFinal(false, c.wire + rest) == Some((Reply(a.status, AllSeen(FieldsOf(c, a)), ""), rest))
            <==> EmptyHeaders(a.input)
    ensures EmptyHeaders(c.accepted.value.input) ==> Concat(c.bodies) == ""
  {
    hide ScanFields, HeadFields, AllSeen, StartOk, ReadFinal, FieldsOf, Interim, Chunks, EmptyHeaders;
    var a := c.accepted.value;
    ReadHeadOf(c, a, rest);
    EmptyFraming(a);
    assert FramingOf(false, a.status, AllSeen(FieldsOf(c, a))) == NoBody;
    var p := Payload(c);
    if p == "" { Assoc(rest, "", ""); } else { assert |p + rest| > |rest|; }
    if c.chunked == Some(true) { assert |p| >= |LAST_CHUNK|; }
  }

  /** A 204 answer with the one header `transfer-encoding: chunked`. */
  function ChunkedNoContent(keepAlive: bool): Cycle {
    var start := ResponseStart(204, "No Content", [CHUNKED_FIELD]);
    Send(Send(NewCycle([], false, keepAlive, false), start).cycle, ResponseBody("", false)).cycle
  }

  lemma ScanOfChunked(keepAlive: bool)
    ensures ScanFields(InitialScan(keepAlive), [CHUNKED_FIELD])
         == Scan(Some(true), 0, keepAlive, false, [CHUNKED_FIELD], false)
  {
    hide PyInt, HasToken, ValidField, Lower, Seen, NonEmpty, Split;
    OwnFields();
    ChunkedIsValid();
    assert [CHUNKED_FIELD][..0] == [] && [] + [CHUNKED_FIELD] == [CHUNKED_FIELD];
  }

  lemma ChunkedIsValid()
    ensures ValidField(CHUNKED_FIELD)
  {
    hide ValidField;
    PlainFieldIsValid(CHUNKED_FIELD);
  }

  lemma OnlyLastChunk(c: Cycle)
    requires !c.isHead && c.chunked == Some(true) && c.complete && c.bodies == [""]
    ensures Payload(c) == LAST_CHUNK
  {
    assert [""][..0] == [] && Chunks([""]) == Chunks([]) + Chunk("");
  }

  /** It is accepted and completed, and leaves a last chunk that a client takes for the next response. */
  lemma BodylessCanLeaveBytes(keepAlive: bool, rest: Bytes)
    ensures var c := ChunkedNoContent(keepAlive);
            && ResponseOk(c) && c.complete && !c.isHead && c.accepted.Some? && c.accepted.value.status == 204
            && !EmptyHeaders(c.accepted.value.input)
            && var r := ReadFinal(false, c.wire + rest);
               r.Some? && r.value.0.status == 204 && r.value.1 == LAST_CHUNK + rest
  {
    hide CycleOk, ReadFinal, ResponseOk, FieldsOf, AllSeen, SendStart, NewCycle, Concat, StartOk, AcceptedOk, Lower,
         ScanFields, Payload, ReadAll, ValuesOf, HasChunked;
    ScanOfChunked(keepAlive);
    StartIsAccepted(keepAlive, 204, "No Content", [CHUNKED_FIELD]);
    var c1 := Send(NewCycle([], false, keepAlive, false), ResponseStart(204, "No Content", [CHUNKED_FIELD])).cycle;
    SendOk(c1, ResponseBody("", false), true);
    var c := Send(c1, ResponseBody("", false)).cycle;
    assert c == SendBody(c1, "", false).cycle;
    ResponseOf(c);
    ChunkedIsNotEmpty();
    OnlyLastChunk(c);
    ReadHeadOf(c, c.accepted.value, rest);
  }

  lemma ChunkedIsNotEmpty()
    ensures !EmptyHeaders([CHUNKED_FIELD])
  {
    OwnFields();
    ValuesOfOne([], CHUNKED_FIELD, "transfer-encoding");
    assert [] + [CHUNKED_FIELD] == [CHUNKED_FIELD];
    HasChunkedOne([], "chunked");
  }

  /** A final response. To HEAD, any headers will do; with a status that forbids a body, headers that call for none;
      otherwise, clean headers. */
  predicate Readable(c: Cycle) {
    && c.complete && c.accepted.Some? && c.accepted.value.status >= 200
    && (c.isHead || if BodylessStatus(c.accepted.value.status) then EmptyHeaders(c.accepted.value.input)
                    else CleanHeaders(c.accepted.value.input))
  }

  function ReplyOf(c: Cycle): Reply
    requires Readable(c)
  {
    var a := c.accepted.value;
    Reply(a.status, AllSeen(FieldsOf(c, a)), if c.isHead then "" else Concat(c.bodies))
  }

  /** A completed response is read back as the application sent it: its status, its fields and the
      concatenation of its bodies, or no body for HEAD, with nothing left over. */
  lemma ResponseReadsBack(c: Cycle, rest: Bytes)
    requires ResponseOk(c) && Readable(c)
    ensures ReadFinal(c.isHead, c.wire + rest) == Some((ReplyOf(c), rest))
  {
    hide ScanFields, HeadFields, AllSeen, CleanHeaders, EmptyHeaders, StartOk, ReadFinal, FieldsOf, Interim;
    var a := c.accepted.value;
    ReadHeadOf(c, a, rest);
    var framing := FramingOf(c.isHead, a.status, AllSeen(FieldsOf(c, a)));
    if c.isHead {
      assert framing == NoBody;
      Assoc(rest, "", "");
    } else if BodylessStatus(a.status) {
      BodylessLeavesNothing(c, rest);
    } else {
      FieldsOfPlain(c, a);
      FramingAgrees(a);
      PayloadReadsBack(c, a, framing, rest);
    }
  }

  /** A plain 200 response to a request that is not HEAD. */
  function PlainAnswer(keepAlive: bool, body: Bytes): Cycle {
    var started := Send(NewCycle([], false, keepAlive, false), ResponseStart(200, "OK", [])).cycle;
    Send(started, ResponseBody(body, false)).cycle
  }

  /** It is readable, whatever its body, so that the body is read back. */
  lemma PlainAnswerReadsBack(keepAlive: bool, body: Bytes, rest: Bytes)
    ensures Readable(PlainAnswer(keepAlive, body))
    ensures var r := ReadFinal(false, PlainAnswer(keepAlive, body).wire + rest);
            r.Some? && r.value.0.status == 200 && r.value.0.body == body && r.value.1 == rest
  {
    hide CycleOk, ReadFinal, CleanHeaders, Chunk, ResponseOk, FieldsOf, AllSeen, SendStart, NewCycle, Concat;
    StartIsAccepted(keepAlive, 200, "OK", []);
    var c1 := Send(NewCycle([], false, keepAlive, false), ResponseStart(200, "OK", [])).cycle;
    SendOk(c1, ResponseBody(body, false), true);
    var c := Send(c1, ResponseBody(body, false)).cycle;
    assert c == SendBody(c1, body, false).cycle;
    ResponseOf(c);
    NoHeadersAreClean();
    ResponseReadsBack(c, rest);
    assert c.bodies == [] + [body];
    ConcatOne([], body);
    ConcatNone();
    Assoc(body, "", "");
  }

  lemma NoHeadersAreClean()
    ensures CleanHeaders([])
  {
    assert AllSeen([]) == [];
  }

  lemma FieldsOfPlain(c: Cycle, a: Accepted)
    requires !c.isHead
    ensures FieldsOf(c, a) == HeadFields(false, a.status, ScanFields(InitialScan(a.keepAlive), a.input))
  {
    hide ScanFields, HeadFields;
  }

  lemma PayloadReadsBack(c: Cycle, a: Accepted, framing: Framing, rest: Bytes)
    requires AcceptedOk(c, a) && c.complete && !c.isHead && Uses(framing, a)
    ensures ReadBody(framing, Payload(c) + rest) == Some((Concat(c.bodies), rest))
  {
    hide Chunks, Concat, Interim;
    match framing {
      case Chunked => ReadChunksOf(c.bodies, rest);
      case Length(n) =>
        var s := Concat(c.bodies) + rest;
        assert s[..n] == Concat(c.bodies) && s[n..] == rest;
    }
  }

  // ---------- the connection ----------

  function Heads(cs: seq<Cycle>): (r: seq<bool>)
    ensures |r| == |cs|
  {
    seq(|cs|, i requires 0 <= i < |cs| => cs[i].isHead)
  }

  function Replies(cs: seq<Cycle>): (r: seq<Reply>)
    requires forall k :: 0 <= k < |cs| ==> Readable(cs[k])
    ensures |r| == |cs|
  {
    seq(|cs|, i requires 0 <= i < |cs| => ReplyOf(cs[i]))
  }

  /** Complete responses in front of any stream extend what is read from it at the front. */
  lemma {:induction false} ReadAllThen(cs: seq<Cycle>, heads: seq<bool>, s: Bytes)
    requires forall k :: 0 <= k < |cs| ==> ResponseOk(cs[k]) && Readable(cs[k])
    ensures var r := ReadAll(heads, s);
            ReadAll(Heads(cs) + heads, Wires(cs) + s) ==
              if r.None? then None else Some((Replies(cs) + r.value.0, r.value.1))
  {
    hide ResponseOk, Readable, ReadFinal, ReplyOf;
    if cs == [] {
      assert Heads(cs) + heads == heads;
      Assoc(s, "", "");
      if ReadAll(heads, s).Some? { assert Replies(cs) + ReadAll(heads, s).value.0 == ReadAll(heads, s).value.0; }
    } else {
      var front, c := cs[..|cs| - 1], cs[|cs| - 1];
      ReadAllThen(front, [c.isHead] + heads, c.wire + s);
      assert Heads(cs) + heads == Heads(front) + ([c.isHead] + heads);
      Assoc(Wires(front), c.wire, s);
      ResponseReadsBack(c, s);
      assert ([c.isHead] + heads)[1..] == heads;
      if ReadAll(heads, s).Some? {
        var after := ReadAll(heads, s).value.0;
        assert Replies(front) + ([ReplyOf(c)] + after) == Replies(cs) + after;
      }
    }
  }

  lemma {:induction false} WiresSplit(cs: seq<Cycle>, m: nat)
    requires m <= |cs|
    ensures Wires(cs) == Wires(cs[..m]) + Wires(cs[m..])
  {
    if m == |cs| {
      assert cs[..m] == cs && cs[m..] == [];
      Assoc(Wires(cs), "", "");
    } else {
      var last := |cs| - 1;
      WiresSplit(cs[..last], m);
      assert cs[..last][..m] == cs[..m] && cs[..last][m..] == cs[m..][..last - m];
      assert cs[m..][last - m] == cs[last];
      Assoc(Wires(cs[..m]), Wires(cs[..last][m..]), cs[last].wire);
    }
  }

  lemma {:induction false} OnlyFirst(cs: seq<Cycle>)
    requires forall k :: 0 < k < |cs| ==> cs[k].wire == ""
    ensures Wires(cs) == if cs == [] then "" else cs[0].wire
  {
    if |cs| > 1 {
      OnlyFirst(cs[..|cs| - 1]);
      Assoc(cs[0].wire, "", "");
    } else if |cs| == 1 {
      assert cs[..0] == [];
      Assoc(cs[0].wire, "", "");
    }
  }

  /** How many responses are complete; they are those of the first so many requests. */
  function Answered(s: Conn): int {
    var n := Started(s);
    if 0 < n <= |s.cycles| && !s.cycles[n - 1].complete then n - 1 else n
  }

  /** After any run a client that reads the connection gets the completed responses, whole and in request order, as
      far as they are readable ones, followed by everything written after them; and if all are, that is what has been
      written so far of the response in progress. */
  lemma ConnectionReadsBack(es: seq<Event>, m: nat)
    requires Runs(FRESH, es) && m <= Answered(Run(FRESH, es))
    requires forall k :: 0 <= k < m && k < |Run(FRESH, es).cycles| ==> Readable(Run(FRESH, es).cycles[k])
    ensures var s := Run(FRESH, es);
            && m <= Answered(s) <= |s.cycles|
            && (forall k :: 0 <= k < |s.cycles| ==> (s.cycles[k].complete <==> k < Answered(s)))
            && (forall k :: 0 <= k < m ==> Readable(s.cycles[k]))
            && ReadAll(Heads(s.cycles[..m]), s.wire) == Some((Replies(s.cycles[..m]), Wires(s.cycles[m..])))
            && (m == Answered(s) ==> Wires(s.cycles[m..]) == if m < |s.cycles| then s.cycles[m].wire else "")
  {
    hide Inv, Readable, Answered, ReadAll, Run, Runs;
    FreshInv();
    RunKeepsInv(FRESH, es);
    StateReadsBack(Run(FRESH, es), m);
  }

  lemma StateReadsBack(s: Conn, m: nat)
    requires Inv(s) && m <= Answered(s)
    requires forall k :: 0 <= k < m && k < |s.cycles| ==> Readable(s.cycles[k])
    ensures && m <= Answered(s) <= |s.cycles|
            && (forall k :: 0 <= k < |s.cycles| ==> (s.cycles[k].complete <==> k < Answered(s)))
            && (forall k :: 0 <= k < m ==> Readable(s.cycles[k]))
            && ReadAll(Heads(s.cycles[..m]), s.wire) == Some((Replies(s.cycles[..m]), Wires(s.cycles[m..])))
            && (m == Answered(s) ==> Wires(s.cycles[m..]) == if m < |s.cycles| then s.cycles[m].wire else "")
  {
    hide Inv, ResponseOk, Readable, Answered, Wires;
    AnsweredInOrder(s);
    WiresSplit(s.cycles, m);
    ReadAllThen(s.cycles[..m], [], Wires(s.cycles[m..]));
    assert Heads(s.cycles[..m]) + [] == Heads(s.cycles[..m]);
    assert Replies(s.cycles[..m]) + [] == Replies(s.cycles[..m]);
    if m == Answered(s) { OnlyFirst(s.cycles[m..]); }
  }

  lemma AnsweredInOrder(s: Conn)
    requires Inv(s)
    ensures var m := Answered(s);
            && 0 <= m <= |s.cycles| && s.wire == Wires(s.cycles)
            && (forall k :: 0 <= k < |s.cycles| ==> (s.cycles[k].complete <==> k < m) && ResponseOk(s.cycles[k]))
            && (forall k :: m < k < |s.cycles| ==> s.cycles[k].wire == "")
  {
    hide ResponseOk, RequestOk, Wires;
  }
}
