// What the builder writes, the parser reads back: the same table, the same body and the
// same first line.

module WebDocumentRoundTrip {
  import opened WebDocument
  import opened WebDocumentFirstLine
  import opened WebDocumentHeaders

  /** setstatusline or setrequestline on an empty document, addheader for each header, and setbody. */
  ghost function Headed(d: Dialect, f: First, hs: seq<Header>): (r: Doc)
    ensures Editable(r)
  {
    AddHeaders(d, SetFirst(d, EmptyDoc(), f), hs)
  }

  ghost function Built(d: Dialect, f: First, hs: seq<Header>, body: string): (r: Doc)
    ensures |r.table| == SLOTS
  {
    SetBody(Headed(d, f, hs), body)
  }

  function HeadText(d: Dialect, f: First, hs: seq<Header>): string {
    FirstText(d, f) + "\r\n" + HeaderText(d, hs) + "\r\n"
  }

  /** Where the first header's name starts. */
  function HeadersStart(d: Dialect, f: First): nat { |FirstText(d, f)| + 2 }

  lemma BuilderLaysOut(d: Dialect, f: First, hs: seq<Header>, body: string)
    requires hs != []
    ensures var b := Built(d, f, hs, body);
            && b.text == HeadText(d, f, hs) + body
            && b.body == Range(|HeadText(d, f, hs)|, |b.text|)
            && b.table == Layout(d, HeadersStart(d, f), hs, EmptyTable())
            && b.count == |hs|
            && SameFirstLine(b, SetFirst(d, EmptyDoc(), f))
  {
    var s := SetFirst(d, EmptyDoc(), f);
    var base := FirstText(d, f) + "\r\n";
    assert s.text == base + "";
    var r := Headed(d, f, hs);
    BuilderWrites(d, s, base, hs, r);
    BuilderFollowsLayout(d, s, base, hs, r);
    assert r.text == HeadText(d, f, hs);
  }

  predicate SameHeaders(p: Doc, s: Doc) {
    p.text == s.text && p.table == s.table && p.body == s.body && p.parsed == s.parsed && p.count == s.count
  }

  /** What the parser makes of a status line. Its reason starts at the space before it. */
  lemma StatusLineRead(d: Dialect, s: Doc, code: int, reason: string, more: string)
    requires d.VersionOk() && INT_MIN <= code <= INT_MAX && NoLineEnd(reason)
    requires s.text == StatusLine(d.version, code, reason) + "\r\n" + more
    ensures var p := ParseLine(d, s);
            var line := StatusLine(d.version, code, reason);
            && SameHeaders(p, s) && p.rsline == Range(0, |line|)
            && p.verb == RESPONSE && p.status == (if code < 0 then -1 else code)
            && p.codestr == Range(|d.version| + 1, |line| - |reason| - 1)
            && p.reason == Range(|line| - |reason| - 1, |line|)
  {
    hide FindLine, StatusLine, StatusOf, CodeText;
    var first := |d.version| + 1;
    StatusLineFound(d, code, reason, more);
    StatusRead(s.text, Range(first, first + |CodeText(code)|), code);
    StatusLineLength(d.version, code, reason);
  }

  lemma StatusLineLength(version: string, code: int, reason: string)
    ensures |StatusLine(version, code, reason)| == |version| + 1 + |CodeText(code)| + 1 + |reason|
  {
  }

  /** What the parser makes of a request line, however its method is spelled. */
  lemma RequestLineRead(d: Dialect, s: Doc, verb: int, name: string, uri: string, more: string)
    requires d.VersionOk() && d.MethodsOk() && verb in d.methods && NoLineEnd(uri)
    requires SameName(name, d.methods[verb]) && d.MethodOk(name)
    requires s.text == RequestLine(d.version, name, uri) + "\r\n" + more
    ensures var p := ParseLine(d, s); var b := SetRequestLine(d, EmptyDoc(), verb, uri);
            && SameHeaders(p, s) && p.rsline == Range(0, |RequestLine(d.version, name, uri)|)
            && p.verb == verb && p.methodstr == b.methodstr && (p.uri == b.uri <==> !Has(uri, ' '))
  {
    LookedUpAlikeIff(name, d.methods[verb]);
    hide FindLine;
    RequestLineFound(d, name, uri, more);
  }

  /** Any document whose string starts with a head reads as that head says. */
  lemma HeadRead(d: Dialect, f: First, hs: seq<Header>, body: string, s: Doc, p: Doc)
    requires d.NamesOk() && GoodHeaders(d, hs) && hs != []
    requires |s.table| == SLOTS && s.text == HeadText(d, f, hs) + body
    requires p.rsline == Range(0, |FirstText(d, f)|) && SameHeaders(p, s)
    ensures var r := ParseHeaders(d, p);
            && r.table == Layout(d, HeadersStart(d, f), hs, s.table)
            && r.body == Range(|HeadText(d, f, hs)|, |s.text|)
            && r.count == |hs| - 1
  {
    hide Headers, HeadText, Tail, Layout;
    var off, none := HeadersStart(d, f), Parsed(s.table, 0, 0);
    TailFollows(d, f, hs, body);
    ParserFollowsLayout(d, s.text, off, hs, body, none, Headers(d, s.text, off, none));
    HeadLength(d, f, hs);
  }

  lemma TailFollows(d: Dialect, f: First, hs: seq<Header>, body: string)
    ensures Rest(HeadText(d, f, hs) + body, HeadersStart(d, f), Tail(d, hs, body))
  {
    var first := FirstText(d, f) + "\r\n";
    assert HeadText(d, f, hs) + body == first + Tail(d, hs, body);
  }

  lemma HeadLength(d: Dialect, f: First, hs: seq<Header>)
    requires hs != []
    ensures |HeadText(d, f, hs)| == HeadersStart(d, f) + |HeaderText(d, hs)| + 2
    ensures |HeaderText(d, hs)| >= 4
  {
  }

  lemma StatusLineWritten(d: Dialect, code: int, reason: string)
    ensures var b := SetStatusLine(d, EmptyDoc(), code, reason);
            var line := StatusLine(d.version, code, reason);
            && b.status == code && b.reason == Range(|line| - |reason|, |line|)
            && b.codestr == Range(|d.version| + 1 + |Pad(code)|, |line| - |reason| - 1)
  {
    StatusLineLength(d.version, code, reason);
  }

  ghost function Reread(d: Dialect, f: First, hs: seq<Header>, body: string): (r: Doc) {
    Read(d, FromText(Built(d, f, hs, body).text))
  }

  lemma TextIsHead(d: Dialect, f: First, hs: seq<Header>, body: string)
    ensures HeadText(d, f, hs) + body == FirstText(d, f) + "\r\n" + Tail(d, hs, body)
  {
  }

  lemma StatusReread(d: Dialect, code: int, reason: string, hs: seq<Header>, body: string)
    requires d.Valid() && GoodFirst(d, Status(code, reason)) && GoodHeaders(d, hs) && hs != []
    ensures var f := Status(code, reason);
            var b := Built(d, f, hs, body); var p := Reread(d, f, hs, body);
            && p.table == b.table && p.body == b.body && p.count == b.count - 1
            && p.verb == RESPONSE && (p.status == b.status <==> code >= -1)
            && (p.codestr == b.codestr <==> code >= 100) && p.reason != b.reason
  {
    var f := Status(code, reason);
    var s := FromText(Built(d, f, hs, body).text);
    BuilderLaysOut(d, f, hs, body);
    TextIsHead(d, f, hs, body);
    StatusLineRead(d, s, code, reason, Tail(d, hs, body));
    StatusLineWritten(d, code, reason);
    StatusLineLength(d.version, code, reason);
    HeadRead(d, f, hs, body, s, ParseLine(d, s));
  }

  lemma RequestReread(d: Dialect, verb: int, uri: string, hs: seq<Header>, body: string)
    requires d.Valid() && GoodFirst(d, Request(verb, uri)) && GoodHeaders(d, hs) && hs != []
    ensures var f := Request(verb, uri);
            var b := Built(d, f, hs, body); var p := Reread(d, f, hs, body);
            && p.table == b.table && p.body == b.body && p.count == b.count - 1
            && p.verb == b.verb && p.methodstr == b.methodstr && (p.uri == b.uri <==> !Has(uri, ' '))
  {
    var f := Request(verb, uri);
    var s := FromText(Built(d, f, hs, body).text);
    BuilderLaysOut(d, f, hs, body);
    TextIsHead(d, f, hs, body);
    RequestLineRead(d, s, verb, d.methods[verb], uri, Tail(d, hs, body));
    HeadRead(d, f, hs, body, s, ParseLine(d, s));
  }

  /** The parser's view of a built document agrees with the builder's. The status code
      agrees exactly when it is not below -1 and its range when it needs no padding, the URI
      exactly when it has no space; the reason phrase and the header count never do. */
  lemma BuilderAgreesWithParser(d: Dialect, f: First, hs: seq<Header>, body: string)
    requires d.Valid() && GoodFirst(d, f) && GoodHeaders(d, hs) && hs != []
    ensures var b := Built(d, f, hs, body); var p := Reread(d, f, hs, body);
            && p.table == b.table
            && p.body == b.body && Slice(b.text, p.body) == body
            && p.count == b.count - 1
            && (f.Status? ==> p.verb == RESPONSE && (p.status == b.status <==> f.code >= -1)
                              && (p.codestr == b.codestr <==> f.code >= 100) && p.reason != b.reason)
            && (f.Request? ==> p.verb == b.verb && p.methodstr == b.methodstr
                               && (p.uri == b.uri <==> !Has(f.uri, ' ')))
  {
    hide Built, Reread, HeadText, Slice, Has;
    match f {
      case Status(code, reason) => StatusReread(d, code, reason, hs, body);
      case Request(verb, uri) => RequestReread(d, verb, uri, hs, body);
    }
    BuilderLaysOut(d, f, hs, body);
    SliceOfEnd(HeadText(d, f, hs), body);
  }

  lemma SliceOfEnd(a: string, b: string)
    ensures Slice(a + b, Range(|a|, |a + b|)) == b
  {
  }

  lemma FirstLineSet(d: Dialect, f: First)
    ensures var s := SetFirst(d, EmptyDoc(), f);
            && !s.parsed && (f.Status? ==> s.verb == METHOD_UNKNOWN)
            && (f.Request? ==> s.verb == f.verb && s.rsline == Range(0, |FirstText(d, f)|))
  {
  }

  // ---- the three slots of a header

  predicate AllTaken(ranges: seq<Range>) { forall k :: 0 <= k < |ranges| ==> ranges[k].end > 0 }

  /** Where the values of one header are, in the order they were added. */
  ghost function Places(d: Dialect, off: nat, hs: seq<Header>, id: HeaderId): (r: seq<Range>)
    ensures AllTaken(r)
    decreases |hs|
  {
    if hs == [] then []
    else
      var rest := Places(d, off + |FieldOf(d, hs[0])|, hs[1..], id);
      if hs[0].id == id then [ValueRange(d, off, hs[0])] + rest else rest
  }

  function Nth(ranges: seq<Range>, k: nat): Range { if k < |ranges| then ranges[k] else EMPTY }

  /** The three slots of id hold the first three of these ranges, and the rest are free. */
  predicate Holds(table: seq<Range>, id: HeaderId, ranges: seq<Range>)
    requires |table| == SLOTS
  {
    && table[id] == Nth(ranges, 0)
    && table[id + MAX_HEADERS] == Nth(ranges, 1)
    && table[id + 2 * MAX_HEADERS] == Nth(ranges, 2)
  }

  lemma StoreHolds(table: seq<Range>, id: HeaderId, seen: seq<Range>, h: HeaderId, r: Range)
    requires |table| == SLOTS && r.end > 0 && AllTaken(seen)
    requires Holds(table, id, seen)
    ensures Holds(Store(table, h, r), id, if h == id then seen + [r] else seen)
  {
  }

  /** The three-duplicate rule: whatever headers are added, the first three values of each
      are in its slots in order, and later ones are in no slot. */
  lemma {:induction false} FirstThreeAreKept(d: Dialect, off: nat, hs: seq<Header>, table: seq<Range>, id: HeaderId,
                                             seen: seq<Range>)
    requires |table| == SLOTS && AllTaken(seen) && Holds(table, id, seen)
    ensures Holds(Layout(d, off, hs, table), id, seen + Places(d, off, hs, id))
    decreases |hs|
  {
    if hs == [] {
      assert seen + Places(d, off, hs, id) == seen;
    } else {
      var r := ValueRange(d, off, hs[0]);
      var next := off + |FieldOf(d, hs[0])|;
      var now := if hs[0].id == id then seen + [r] else seen;
      StoreHolds(table, id, seen, hs[0].id, r);
      FirstThreeAreKept(d, next, hs[1..], Store(table, hs[0].id, r), id, now);
      assert seen + Places(d, off, hs, id) == now + Places(d, next, hs[1..], id);
    }
  }

  lemma BuiltTableHolds(d: Dialect, f: First, hs: seq<Header>, body: string, id: HeaderId)
    requires hs != []
    ensures Holds(Built(d, f, hs, body).table, id, Places(d, HeadersStart(d, f), hs, id))
  {
    BuilderLaysOut(d, f, hs, body);
    FirstThreeAreKept(d, HeadersStart(d, f), hs, EmptyTable(), id, []);
    assert [] + Places(d, HeadersStart(d, f), hs, id) == Places(d, HeadersStart(d, f), hs, id);
  }

  // ---- where the builder's table goes wrong

  lemma ReadingLaysOutAgain(d: Dialect, f: First, hs: seq<Header>, body: string)
    requires d.Valid() && GoodFirst(d, f) && GoodHeaders(d, hs) && hs != []
    ensures var once := Layout(d, HeadersStart(d, f), hs, EmptyTable());
            && Built(d, f, hs, body).table == once
            && Read(d, Built(d, f, hs, body)).table == Layout(d, HeadersStart(d, f), hs, once)
            && Read(d, Built(d, f, hs, body)).body == Built(d, f, hs, body).body
  {
    var b := Built(d, f, hs, body);
    BuilderLaysOut(d, f, hs, body);
    FirstLineSet(d, f);
    TextIsHead(d, f, hs, body);
    hide Built, HeadText, Layout, ParseLine, ParseHeaders, SetFirst, EmptyDoc, Tail, GoodHeaders;
    match f {
      case Status(code, reason) =>
        StatusLineRead(d, b, code, reason, Tail(d, hs, body));
        HeadRead(d, f, hs, body, b, ParseLine(d, b));
      case Request(verb, uri) =>
        assert verb != METHOD_UNKNOWN;
        HeadRead(d, f, hs, body, b, b);
    }
  }

  function Occurrences(hs: seq<Header>, id: HeaderId): nat {
    if hs == [] then 0 else (if hs[0].id == id then 1 else 0) + Occurrences(hs[1..], id)
  }

  lemma {:induction false} AsManyPlaces(d: Dialect, off: nat, hs: seq<Header>, id: HeaderId)
    ensures |Places(d, off, hs, id)| == Occurrences(hs, id)
    decreases |hs|
  {
    if hs != [] { AsManyPlaces(d, off + |FieldOf(d, hs[0])|, hs[1..], id); }
  }

  lemma {:induction false} OccursIff(hs: seq<Header>, id: HeaderId)
    ensures Occurrences(hs, id) > 0 <==> exists k :: 0 <= k < |hs| && hs[k].id == id
    decreases |hs|
  {
    if hs != [] {
      OccursIff(hs[1..], id);
      if k :| 0 <= k < |hs| && hs[k].id == id {
        if k > 0 { assert hs[1..][k - 1].id == id; }
      }
      if k :| 0 <= k < |hs[1..]| && hs[1..][k].id == id { assert hs[k + 1].id == id; }
    }
  }

  predicate SameSlots(a: seq<Range>, b: seq<Range>, id: HeaderId)
    requires |a| == SLOTS && |b| == SLOTS
  {
    && a[id] == b[id]
    && a[id + MAX_HEADERS] == b[id + MAX_HEADERS]
    && a[id + 2 * MAX_HEADERS] == b[id + 2 * MAX_HEADERS]
  }

  lemma TwiceHolds(a: seq<Range>, b: seq<Range>, id: HeaderId, places: seq<Range>)
    requires |a| == SLOTS && |b| == SLOTS && AllTaken(places)
    requires Holds(a, id, places) && Holds(b, id, places + places)
    ensures SameSlots(a, b, id) <==> |places| == 0 || |places| >= 3
  {
    var n := |places|;
    if n == 1 || n == 2 { assert Nth(places, n) == EMPTY && Nth(places + places, n) == places[0]; }
  }

  lemma SlotsOfAll(a: seq<Range>, b: seq<Range>)
    requires |a| == SLOTS && |b| == SLOTS && forall id: HeaderId :: SameSlots(a, b, id)
    ensures a == b
  {
    forall k | 0 <= k < SLOTS ensures a[k] == b[k] {
      var id: HeaderId := k % MAX_HEADERS;
      assert SameSlots(a, b, id);
    }
  }

  /** Laying the same headers out a second time changes a header's slots exactly when it
      occurs once or twice. */
  lemma SecondLayout(d: Dialect, off: nat, hs: seq<Header>, id: HeaderId)
    ensures var once := Layout(d, off, hs, EmptyTable());
            SameSlots(once, Layout(d, off, hs, once), id) <==> Occurrences(hs, id) == 0 || Occurrences(hs, id) >= 3
  {
    var places, once := Places(d, off, hs, id), Layout(d, off, hs, EmptyTable());
    FirstThreeAreKept(d, off, hs, EmptyTable(), id, []);
    assert [] + places == places;
    FirstThreeAreKept(d, off, hs, once, id, places);
    AsManyPlaces(d, off, hs, id);
    TwiceHolds(once, Layout(d, off, hs, once), id, places);
  }

  /** Reading the builder's own object, and not its string, stores every header again until
      its three slots are taken: the table stays as it is exactly when each of the
      headers occurs at least three times. */
  lemma ReadingTheBuilderStoresTwice(d: Dialect, f: First, hs: seq<Header>, body: string)
    requires d.Valid() && GoodFirst(d, f) && GoodHeaders(d, hs) && hs != []
    ensures var b := Built(d, f, hs, body);
            && Read(d, b).table == Layout(d, HeadersStart(d, f), hs, b.table)
            && Read(d, b).body == b.body
            && (Read(d, b).table == b.table <==> forall k :: 0 <= k < |hs| ==> Occurrences(hs, hs[k].id) >= 3)
  {
    hide Built, Read, Layout, Occurrences;
    var b := Built(d, f, hs, body);
    var off := HeadersStart(d, f);
    ReadingLaysOutAgain(d, f, hs, body);
    forall id: HeaderId
      ensures SameSlots(b.table, Read(d, b).table, id) <==> Occurrences(hs, id) == 0 || Occurrences(hs, id) >= 3
      ensures Occurrences(hs, id) > 0 <==> exists k :: 0 <= k < |hs| && hs[k].id == id
    {
      SecondLayout(d, off, hs, id);
      OccursIff(hs, id);
    }
    if forall k :: 0 <= k < |hs| ==> Occurrences(hs, hs[k].id) >= 3 { SlotsOfAll(b.table, Read(d, b).table); }
  }

  /** A header added after a body goes into the string before the body, but the range stored
      for its value is not where it is: behind another header it starts early by the length
      of its name, and as the first header of all it and the body are a further two characters
      early. */
  lemma HeaderAfterBodyStartsEarly(d: Dialect, s: Doc, h: HeaderId, value: string)
    requires d.NamesOk() && Editable(s) && s.body.start < s.body.end && h < |d.names|
    ensures var r := AddHeader(d, s, h, value); var name := d.names[h];
            var early := if s.count > 0 then 0 else 2;
            var start := s.body.start - 2 + early + |name| + 2;
            && Slice(r.text, Range(start, start + |value|)) == value
            && r.table == Store(s.table, h, Range(start - |name| - early, start - early + |value|)) && |name| > 0
            && Slice(r.text, Range(r.body.start + early, r.body.end + early)) == Slice(s.text, s.body)
            && r.count == s.count + 1
  {
    hide Store, Slice, Field;
    var name, at := d.names[h], if s.count > 0 then s.body.start - 2 else s.body.start;
    var left, right := s.text[..at], s.text[at..];
    var field, more := Field(name, value), if s.count > 0 then "" else "\r\n";
    assert NameOk(name);
    FieldValue(left, name, value, more + right);
    InsertedBeforeBody(d, s, h, value);
    assert left + field + (more + right) == left + (field + more) + right && s.text == left + right;
    SliceShifted(left, field + more, right, s.body);
  }

  lemma InsertedBeforeBody(d: Dialect, s: Doc, h: HeaderId, value: string)
    requires Editable(s) && s.body.start < s.body.end
    ensures var at := if s.count > 0 then s.body.start - 2 else s.body.start;
            var more := Field(d.NameOf(h), value) + if s.count > 0 then "" else "\r\n";
            AddHeader(d, s, h, value).text == s.text[..at] + more + s.text[at..]
  {
    hide Field, Store;
    var field := Field(d.NameOf(h), value);
    assert field + "" == field;
  }

  lemma FieldValue(left: string, name: string, value: string, post: string)
    ensures |Field(name, value)| == |name| + |value| + 4
    ensures var start := |left| + |name| + 2;
            Slice(left + Field(name, value) + post, Range(start, start + |value|)) == value
  {
    SliceOfMiddle(left + (name + ": "), value, "\r\n" + post);
    assert left + Field(name, value) + post == (left + (name + ": ")) + value + ("\r\n" + post);
  }

  lemma SliceOfMiddle(a: string, b: string, c: string)
    ensures Slice(a + b + c, Range(|a|, |a| + |b|)) == b
  {
  }

  lemma SliceShifted(a: string, b: string, c: string, r: Range)
    requires |a| <= r.start <= r.end <= |a| + |c|
    ensures Slice(a + b + c, Range(r.start + |b|, r.end + |b|)) == Slice(a + c, r)
  {
    var x, y := a + b + c, a + c;
    assert x[|a| + |b|..] == c && y[|a|..] == c;
    assert x[r.start + |b|..r.end + |b|] == c[r.start - |a|..r.end - |a|] == y[r.start..r.end];
  }

  /** A body set again replaces the one before, wherever that was, and is found where its range
      says. */
  lemma LastBodyCounts(s: Doc, first: string, body: string)
    requires Editable(s) && Editable(SetBody(s, first))
    ensures SetBody(SetBody(s, first), body) == SetBody(s, body)
    ensures Slice(SetBody(s, body).text, SetBody(s, body).body) == body
  {
    var kept := if s.body.end != 0 then s.text[..s.body.start] + s.text[s.body.end..] else s.text;
    var t := SetBody(s, first);
    assert t.text == kept + first && t.text[..|kept|] == kept && t.text[|kept| + |first|..] == "";
    SliceOfEnd(kept, body);
  }

  function HeadersAndBlank(d: Dialect, hs: seq<Header>): string {
    HeaderText(d, hs) + (if hs != [] then "\r\n" else "")
  }

  /** A first line set by setstatusline ends, for its range, on the CR of its line end: the
      next one leaves the line feed behind, between the new line and the headers. */
  lemma SecondStatusLineLeavesLineFeed(d: Dialect, code: int, reason: string, hs: seq<Header>, code': int, reason': string)
    ensures SetStatusLine(d, Headed(d, Status(code, reason), hs), code', reason').text
         == StatusLine(d.version, code', reason') + "\r\n" + ("\n" + HeadersAndBlank(d, hs))
  {
    hide StatusLine, Headed;
    var line := StatusLine(d.version, code, reason);
    StatusHeaded(d, code, reason, hs);
    DropFront(line + "\r", "\n" + HeadersAndBlank(d, hs));
  }

  lemma StatusHeaded(d: Dialect, code: int, reason: string, hs: seq<Header>)
    ensures var s := Headed(d, Status(code, reason), hs); var line := StatusLine(d.version, code, reason);
            && s.text == (line + "\r") + ("\n" + HeadersAndBlank(d, hs))
            && s.rsline == Range(0, |line + "\r"|)
  {
    hide StatusLine, HeaderText;
    var s := SetFirst(d, EmptyDoc(), Status(code, reason));
    var base := StatusLine(d.version, code, reason) + "\r\n";
    assert s.text == base + "";
    BuilderWrites(d, s, base, hs, Headed(d, Status(code, reason), hs));
  }

  lemma DropFront(a: string, b: string)
    ensures Drop(a + b, |a|) == b
  {
  }
}
