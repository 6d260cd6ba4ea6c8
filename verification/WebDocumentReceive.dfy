// Sending what the builder made: received in any chunks, it is complete exactly when all
// of it is there.

module WebDocumentReceive {
  import opened Common
  import opened WebDocument
  import opened WebDocumentFirstLine
  import opened WebDocumentHeaders
  import opened WebDocumentRoundTrip
  import opened WebDocumentChunks

  /** A blank line: two line ends in a row. */
  predicate BlankAt(s: string, i: nat) { LineEnd(s, i) && LineEnd(s, i + 2) }

  predicate NoBlankLine(s: string) { forall i :: 0 <= i < |s| ==> !BlankAt(s, i) }

  /** Neither the value nor the line end after it makes a blank line. */
  predicate Plain(v: string) { NoBlankLine(v + "\r\n") }

  ghost predicate PlainHeaders(hs: seq<Header>) { forall k :: 0 <= k < |hs| ==> Plain(hs[k].value) }

  // ---- the first blank line of a built head is its last

  predicate EndsLine(s: string) { |s| >= 2 && LineEnd(s, |s| - 2) }

  lemma JoinedIff(a: string, b: string)
    requires EndsLine(a) && EndsLine(b) && b[0] != '\r'
    ensures NoBlankLine(a + b) <==> NoBlankLine(a) && NoBlankLine(b)
    ensures EndsLine(a + b)
  {
    var s := a + b;
    forall i | 0 <= i < |s|
      ensures BlankAt(s, i) <==> (i < |a| && BlankAt(a, i)) || (i >= |a| && BlankAt(b, i - |a|))
    {
      if i >= |a| {
        assert i + 3 < |s| ==> s[i] == b[i - |a|] && s[i + 1] == b[i + 1 - |a|] && s[i + 2] == b[i + 2 - |a|] && s[i + 3] == b[i + 3 - |a|];
      }
    }
    forall i | 0 <= i < |b| ensures BlankAt(b, i) <==> BlankAt(s, i + |a|) {}
    assert LineEnd(b, |b| - 2) && s[|s| - 2] == b[|b| - 2] && s[|s| - 1] == b[|b| - 1];
  }

  lemma FieldBlankIff(name: string, value: string)
    requires NameOk(name)
    ensures NoBlankLine(Field(name, value)) <==> Plain(value)
    ensures EndsLine(Field(name, value)) && Field(name, value)[0] != '\r'
  {
    var f, v := Field(name, value), value + "\r\n";
    var off := |name| + 2;
    assert f == name + ": " + v;
    forall i | 0 <= i < |f| ensures BlankAt(f, i) <==> i >= off && BlankAt(v, i - off) {
      if i < |name| { assert f[i] == name[i]; }
      else if i >= off {
        assert i + 3 < |f| ==> f[i] == v[i - off] && f[i + 1] == v[i + 1 - off] && f[i + 2] == v[i + 2 - off] && f[i + 3] == v[i + 3 - off];
      }
    }
    forall i | 0 <= i < |v| ensures BlankAt(v, i) <==> BlankAt(f, i + off) {}
    assert f[0] == name[0];
  }

  lemma {:induction false} HeadersBlankIff(d: Dialect, hs: seq<Header>)
    requires d.NamesOk() && GoodHeaders(d, hs) && hs != []
    ensures var t := HeaderText(d, hs); (NoBlankLine(t) <==> PlainHeaders(hs)) && EndsLine(t) && t[0] != '\r'
    decreases |hs|
  {
    var f := FieldOf(d, hs[0]);
    FirstIsKnown(d, hs);
    FieldBlankIff(d.names[hs[0].id], hs[0].value);
    PlainSplits(hs);
    hide Field, Plain, NoBlankLine, PlainHeaders, EndsLine;
    if hs[1..] == [] {
      assert HeaderText(d, hs) == f + "" == f;
      assert PlainHeaders(hs[1..]) by { NoHeadersPlain(); }
    } else {
      GoodTail(d, hs);
      HeadersBlankIff(d, hs[1..]);
      JoinedIff(f, HeaderText(d, hs[1..]));
      assert EndsLine(f) ==> |f| >= 2 by { EndsLineLength(f); }
    }
  }

  lemma EndsLineLength(s: string)
    requires EndsLine(s)
    ensures |s| >= 2
  {
  }

  lemma FirstIsKnown(d: Dialect, hs: seq<Header>)
    requires d.NamesOk() && GoodHeaders(d, hs) && hs != []
    ensures KnownHeader(d, hs[0]) && NameOk(d.names[hs[0].id]) && d.NameOf(hs[0].id) == d.names[hs[0].id]
  {
  }

  lemma NoHeadersPlain()
    ensures PlainHeaders([])
  {
  }

  lemma PlainSplits(hs: seq<Header>)
    requires hs != []
    ensures PlainHeaders(hs) <==> Plain(hs[0].value) && PlainHeaders(hs[1..])
  {
    hide Plain;
    if Plain(hs[0].value) && PlainHeaders(hs[1..]) {
      forall k | 0 <= k < |hs| ensures Plain(hs[k].value) {
        if k > 0 { assert hs[1..][k - 1] == hs[k]; }
      }
    }
  }

  lemma LineHasNoBlankLine(line: string)
    requires NoLineEnd(line)
    ensures NoBlankLine(line + "\r\n") && EndsLine(line + "\r\n")
  {
    var s := line + "\r\n";
    forall i | 0 <= i < |s| - 2 ensures !LineEnd(s, i) { assert !LineEnd(line, i); }
  }

  lemma BlankFound(s: string, i: nat)
    ensures At(s, BLANK_LINE, i) <==> BlankAt(s, i)
  {
    if i + 4 <= |s| {
      var x := s[i..i + 4];
      assert x[0] == s[i] && x[1] == s[i + 1] && x[2] == s[i + 2] && x[3] == s[i + 3];
      if BlankAt(s, i) { assert x == BLANK_LINE; }
    }
  }

  /** iscomplete waits for a blank line, wherever in the text it comes first. */
  lemma HeadThereIff(text: string)
    ensures HasHead(text) <==> !NoBlankLine(text)
  {
    if i :| 0 <= i < |text| && BlankAt(text, i) {
      BlankFound(text, i);
      FoundBy(text, BLANK_LINE, 0, i);
    } else {
      forall i: nat ensures !At(text, BLANK_LINE, i) { BlankFound(text, i); }
      NeverFound(text, BLANK_LINE, 0);
    }
  }

  lemma {:induction false} NeverFound(s: string, what: string, from: nat)
    requires forall i: nat :: !At(s, what, i)
    ensures Find(s, what, from) == None
    decreases |s| - from
  {
    if from + |what| <= |s| { NeverFound(s, what, from + 1); }
  }

  lemma BlankLineLastIff(s: string)
    requires EndsLine(s)
    ensures Find(s + "\r\n", BLANK_LINE, 0) == Some(|s| - 2) <==> NoBlankLine(s)
  {
    hide At, BlankAt, Find;
    var t := s + "\r\n";
    EndedBlank(s);
    if i :| 0 <= i < |s| && BlankAt(s, i) {
      FoundBy(t, BLANK_LINE, 0, i);
    } else {
      FoundAt(t, BLANK_LINE, 0, |s| - 2);
    }
  }

  /** A last line and a blank line: where blank lines are found now. */
  lemma EndedBlank(s: string)
    requires EndsLine(s)
    ensures At(s + "\r\n", BLANK_LINE, |s| - 2)
    ensures forall i :: 0 <= i < |s| - 2 ==> (At(s + "\r\n", BLANK_LINE, i) <==> BlankAt(s, i))
    ensures forall i :: 0 <= i < |s| && BlankAt(s, i) ==> i < |s| - 2
  {
    EndsLineLength(s);
    LastIsBlank(s);
    hide At, BlankAt, EndsLine;
    forall i | 0 <= i < |s| - 2 ensures At(s + "\r\n", BLANK_LINE, i) <==> BlankAt(s, i) { SameBlank(s, i); }
    forall i | 0 <= i < |s| && BlankAt(s, i) ensures i < |s| - 2 { BlankFits(s, i); }
  }

  lemma LastIsBlank(s: string)
    requires EndsLine(s)
    ensures At(s + "\r\n", BLANK_LINE, |s| - 2)
  {
    var t := s + "\r\n";
    assert t[|s| - 2] == s[|s| - 2] && t[|s| - 1] == s[|s| - 1] && t[|s|] == '\r' && t[|s| + 1] == '\n';
    BlankFound(t, |s| - 2);
  }

  lemma SameBlank(s: string, i: nat)
    requires i + 2 < |s|
    ensures At(s + "\r\n", BLANK_LINE, i) <==> BlankAt(s, i)
  {
    var t := s + "\r\n";
    assert t[i] == s[i] && t[i + 1] == s[i + 1] && t[i + 2] == s[i + 2];
    assert i + 3 < |s| ==> t[i + 3] == s[i + 3];
    assert i + 3 == |s| ==> t[i + 3] == '\r';
    BlankFound(t, i);
  }

  lemma BlankFits(s: string, i: nat)
    requires BlankAt(s, i)
    ensures i < |s| - 2
  {
  }

  lemma FirstTextHasNoEnd(d: Dialect, f: First)
    requires d.Valid() && GoodFirst(d, f)
    ensures NoLineEnd(FirstText(d, f))
  {
    match f
    case Status(code, reason) =>
      CodeTextHasNo(code, '\r');
      StatusLineHasNoEnd(d, CodeText(code), reason);
      assert FirstText(d, f) == d.version + " " + CodeText(code) + " " + reason;
    case Request(verb, uri) => RequestLineHasNoEnd(d, d.methods[verb], uri);
  }

  lemma FirstLineFound(d: Dialect, f: First, more: string)
    requires d.Valid() && GoodFirst(d, f)
    ensures var line := FindLine(d.version, FirstText(d, f) + "\r\n" + more);
            line.Line? && line.end == |FirstText(d, f)|
  {
    match f
    case Status(code, reason) => StatusLineFound(d, code, reason, more);
    case Request(verb, uri) => RequestLineFound(d, d.methods[verb], uri, more);
  }

  lemma BuiltHeadEndsIff(d: Dialect, f: First, hs: seq<Header>)
    requires d.Valid() && GoodFirst(d, f) && GoodHeaders(d, hs) && hs != []
    ensures Find(HeadText(d, f, hs), BLANK_LINE, 0) == Some(|HeadText(d, f, hs)| - 4) <==> PlainHeaders(hs)
  {
    hide FindLine, Find, HeaderText, NoBlankLine, PlainHeaders, EndsLine, FirstText, NoLineEnd;
    var first, t := FirstText(d, f) + "\r\n", HeaderText(d, hs);
    FirstTextHasNoEnd(d, f);
    LineHasNoBlankLine(FirstText(d, f));
    HeadersBlankIff(d, hs);
    EndsLineLength(t);
    JoinedIff(first, t);
    BlankLineLastIff(first + t);
    assert HeadText(d, f, hs) == first + t + "\r\n";
  }

  lemma BuiltHeadParsed(d: Dialect, f: First, hs: seq<Header>)
    requires d.Valid() && GoodFirst(d, f) && GoodHeaders(d, hs) && hs != []
    ensures FindLine(d.version, HeadText(d, f, hs)).Line?
    ensures HeadersIn(d, HeadText(d, f, hs)).end + 4 == |HeadText(d, f, hs)|
    ensures HeadersIn(d, HeadText(d, f, hs)).table == Layout(d, HeadersStart(d, f), hs, EmptyTable())
  {
    hide FindLine, Headers, HeaderText, FirstText, Layout, Tail;
    var head, off, none := HeadText(d, f, hs), HeadersStart(d, f), Parsed(EmptyTable(), 0, 0);
    TextIsHead(d, f, hs, "");
    assert head == head + "" == FirstText(d, f) + "\r\n" + Tail(d, hs, "");
    FirstLineFound(d, f, Tail(d, hs, ""));
    TailFollows(d, f, hs, "");
    ParserFollowsLayout(d, head, off, hs, "", none, Headers(d, head, off, none));
    HeadLength(d, f, hs);
  }

  /** What the builder writes before the body is a head exactly when no value makes a blank
      line; its headers are read back either way. */
  lemma BuiltHeadIsHead(d: Dialect, f: First, hs: seq<Header>)
    requires d.Valid() && GoodFirst(d, f) && GoodHeaders(d, hs) && hs != []
    ensures IsHead(d, HeadText(d, f, hs)) <==> PlainHeaders(hs)
    ensures FindLine(d.version, HeadText(d, f, hs)).Line?
    ensures HeadersIn(d, HeadText(d, f, hs)).table == Layout(d, HeadersStart(d, f), hs, EmptyTable())
  {
    hide HeadText, FindLine, Find, HeadersIn;
    BuiltHeadEndsIff(d, f, hs);
    BuiltHeadParsed(d, f, hs);
    HeadLength(d, f, hs);
  }

  // ---- the content length

  /** The value of the first header with a number. */
  function FirstValue(hs: seq<Header>, id: HeaderId): Option<string> {
    if hs == [] then None
    else if hs[0].id == id then Some(hs[0].value)
    else FirstValue(hs[1..], id)
  }

  lemma {:induction false} FirstPlace(d: Dialect, s: string, off: nat, hs: seq<Header>, rest: string, id: HeaderId)
    requires off <= |s| && s[off..] == HeaderText(d, hs) + rest
    ensures var places := Places(d, off, hs, id);
            && (places == [] <==> FirstValue(hs, id).None?)
            && (places != [] ==> Slice(s, places[0]) == FirstValue(hs, id).value
                                 && places[0].end <= off + |HeaderText(d, hs)|)
    decreases |hs|
  {
    if hs != [] {
      var f := FieldOf(d, hs[0]);
      assert s[off..] == f + (HeaderText(d, hs[1..]) + rest);
      assert s[off + |f|..] == HeaderText(d, hs[1..]) + rest;
      if hs[0].id == id {
        ValueIn(d, s, off, hs[0], HeaderText(d, hs[1..]) + rest);
      } else {
        FirstPlace(d, s, off + |f|, hs[1..], rest, id);
      }
    }
  }

  lemma ValueIn(d: Dialect, s: string, off: nat, h: Header, post: string)
    requires off <= |s| && s[off..] == FieldOf(d, h) + post
    ensures Slice(s, ValueRange(d, off, h)) == h.value
  {
    var n := |d.NameOf(h.id)| + 2;
    assert s[off..][n..n + |h.value|] == h.value;
  }

  lemma DecimalCast(n: nat)
    requires n < SIZE_RANGE
    ensures CastSize(Decimal(n)) == Some(n)
  {
    DecimalIsDigits(n);
    assert IsDigit(Decimal(n)[0]);
    assert Unsigned(Decimal(n)) == Decimal(n);
  }

  /** What iscomplete answers can be read off the document it leaves. */
  lemma AnswerIsInTheResult(d: Dialect, s: Doc)
    requires |s.table| == SLOTS
    ensures Checked(d, s).text == s.text
    ensures Complete(d, s) <==> HasHead(s.text) && WholeBody(d, Checked(d, s))
  {
  }

  /** The last question asked of a document that arrived in chunks. */
  predicate LastAnswer(d: Dialect, chunks: seq<string>)
    requires chunks != []
  {
    Complete(d, Append(Feed(d, EmptyDoc(), chunks[..|chunks| - 1]), chunks[|chunks| - 1]))
  }

  /** Once the head is there: how much body iscomplete waits for. */
  lemma WaitsFor(d: Dialect, f: First, hs: seq<Header>, more: string, n: nat)
    requires d.Valid() && GoodFirst(d, f) && GoodHeaders(d, hs) && PlainHeaders(hs) && hs != []
    requires n < SIZE_RANGE
    ensures var r := OneGo(d, HeadText(d, f, hs) + more);
            && (FirstValue(hs, d.contentLength) == Some(Decimal(n)) ==> (WholeBody(d, r) <==> |more| >= n))
            && (FirstValue(hs, d.contentLength).None? ==> WholeBody(d, r))
  {
    hide OneGo, IsHead, HeadText, Tail, HeadersIn, Layout, Places, FirstValue, HeaderText, Decimal, CastSize;
    var head, off, id := HeadText(d, f, hs), HeadersStart(d, f), d.contentLength;
    var s := head + more;
    BuiltHeadIsHead(d, f, hs);
    OneGoReads(d, head, more);
    var places := Places(d, off, hs, id);
    FirstThreeAreKept(d, off, hs, EmptyTable(), id, []);
    assert [] + places == places;
    TailFollows(d, f, hs, more);
    TailIs(d, hs, more);
    FirstPlace(d, s, off, hs, "\r\n" + more, id);
    DecimalCast(n);
  }

  lemma TailIs(d: Dialect, hs: seq<Header>, body: string)
    ensures Tail(d, hs, body) == HeaderText(d, hs) + ("\r\n" + body)
  {
  }

  predicate Begins(part: string, whole: string) { part <= whole }

  predicate OneBeginsOther(a: string, b: string) { Begins(a, b) || Begins(b, a) }

  /** The last answer depends on the text received alone. */
  lemma LastAnswerIs(d: Dialect, head: string, chunks: seq<string>)
    requires IsHead(d, head) && chunks != [] && !Has(Concat(chunks), '\0')
    requires OneBeginsOther(head, Concat(chunks))
    ensures LastAnswer(d, chunks) <==> |head| <= |Concat(chunks)| && WholeBody(d, OneGo(d, Concat(chunks)))
  {
    hide OneGo, IsHead, WholeBody, Complete, Append, HasHead, Find, Concat;
    var text := Concat(chunks);
    var s := Append(Feed(d, EmptyDoc(), chunks[..|chunks| - 1]), chunks[|chunks| - 1]);
    ChunkingDoesNotMatter(d, head, chunks);
    AnswerIsInTheResult(d, s);
    OneGoText(d, text);
    if |text| < |head| {
      HeadNotThere(d, head, text);
    } else {
      HeadStable(d, head, text[|head|..]);
      assert head + text[|head|..] == text;
    }
  }

  lemma HeadNotThere(d: Dialect, head: string, text: string)
    requires IsHead(d, head) && text <= head && |text| < |head|
    ensures !HasHead(text)
  {
    NoHeadYet(head, text);
  }

  lemma OneGoText(d: Dialect, text: string)
    ensures OneGo(d, text).text == text
  {
  }

  lemma Prefixes(head: string, body: string, text: string)
    requires Begins(text, head + body)
    ensures OneBeginsOther(head, text)
    ensures |head| <= |text| ==> text == head + text[|head|..]
    ensures |head| <= |text| ==> (|text[|head|..]| >= |body| <==> text == head + body)
  {
    assert text == (head + body)[..|text|];
  }

  /** A built document with a true Content-Length, sent in any chunks: iscomplete answers
      yes exactly when all of it has arrived. Without the header, when the head has. */
  lemma CompleteExactlyWhenWhole(d: Dialect, f: First, hs: seq<Header>, body: string, chunks: seq<string>)
    requires d.Valid() && GoodFirst(d, f) && GoodHeaders(d, hs) && PlainHeaders(hs) && hs != []
    requires chunks != [] && Begins(Concat(chunks), Built(d, f, hs, body).text) && !Has(Concat(chunks), '\0')
    requires |body| < SIZE_RANGE
    ensures FirstValue(hs, d.contentLength) == Some(Decimal(|body|)) ==>
              (LastAnswer(d, chunks) <==> Concat(chunks) == Built(d, f, hs, body).text)
    ensures FirstValue(hs, d.contentLength).None? ==>
              (LastAnswer(d, chunks) <==> |HeadText(d, f, hs)| <= |Concat(chunks)|)
  {
    hide *;
    var head, text := HeadText(d, f, hs), Concat(chunks);
    BuilderLaysOut(d, f, hs, body);
    BuiltHeadIsHead(d, f, hs);
    Prefixes(head, body, text);
    LastAnswerIs(d, head, chunks);
    if |head| <= |text| { WaitsFor(d, f, hs, text[|head|..], |body|); } else { assert text != head + body; }
  }
}
