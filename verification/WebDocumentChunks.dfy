// A document that arrives in pieces: however it is cut up, it is read as if it had come
// in one.

module WebDocumentChunks {
  import opened Common
  import opened WebDocument
  import opened WebDocumentFirstLine
  import opened WebDocumentRoundTrip

  const BLANK_LINE := "\r\n\r\n"

  /** A proper first line and at least one field, up to the first blank line, where the
      parser's last value ends. */
  ghost predicate IsHead(d: Dialect, head: string)
  {
    && |head| > 4 && Find(head, BLANK_LINE, 0) == Some(|head| - 4)
    && FindLine(d.version, head).Line?
    && HeadersIn(d, head).end + 4 == |head|
  }

  ghost function HeadersIn(d: Dialect, s: string): (p: Parsed)
    requires FindLine(d.version, s).Line?
    ensures |p.table| == SLOTS
  {
    Headers(d, s, FindLine(d.version, s).end + 2, Parsed(EmptyTable(), 0, 0))
  }

  // ---- what more text does not change

  lemma {:induction false} FindStable(a: string, b: string, what: string, from: nat)
    requires Find(a, what, from).Some?
    ensures Find(a + b, what, from) == Find(a, what, from)
    ensures Find(a, what, from).value + |what| <= |a|
    decreases |a| - from
  {
    assert (a + b)[from..from + |what|] == a[from..from + |what|];
    if !At(a, what, from) { FindStable(a, b, what, from + 1); }
  }

  lemma LineStable(version: string, a: string, b: string)
    requires FindLine(version, a).Line?
    ensures FindLine(version, a + b) == FindLine(version, a)
    ensures FindLine(version, a).sp1 < FindLine(version, a).sp2 <= FindLine(version, a).end <= |a| - 2
  {
    FindStable(a, b, version, 0);
    FindStable(a, b, " ", 0);
    var sp1 := Find(a, " ", 0).value;
    FindStable(a, b, " ", sp1 + 1);
    FindStable(a, b, "\r\n", 0);
    FindFrom(a, " ", sp1 + 1);
  }

  lemma {:induction false} FindFrom(s: string, what: string, from: nat)
    requires Find(s, what, from).Some?
    ensures Find(s, what, from).value >= from
    decreases |s| - from
  {
    if !At(s, what, from) { FindFrom(s, what, from + 1); }
  }

  lemma {:induction false} NameStable(a: string, b: string, i: nat)
    requires NameEnd(a, i) < |a|
    ensures NameEnd(a + b, i) == NameEnd(a, i)
    decreases |a| - i
  {
    if !Separator(a[i]) { NameStable(a, b, i + 1); }
  }

  lemma {:induction false} SkipStable(a: string, b: string, i: nat)
    requires i <= |a| && SkipSeparators(a, i) < |a|
    ensures SkipSeparators(a + b, i) == SkipSeparators(a, i)
    decreases |a| - i
  {
    if i < |a| && Separator(a[i]) { SkipStable(a, b, i + 1); }
  }

  /** A value that ends before the last three characters ended because of what it met. */
  lemma {:induction false} ValueStable(a: string, b: string, i: nat)
    requires i <= |a| && ValueEnd(a, i) + 3 < |a|
    ensures ValueEnd(a + b, i) == ValueEnd(a, i)
    decreases |a| - i
  {
    if a[i] != '\r' { ValueStable(a, b, i + 1); }
    else if a[i + 1] != '\n' { ValueStable(a, b, i + 2); }
    else if Blank(a[i + 2]) { ValueStable(a, b, i + 3); }
  }

  lemma {:induction false} HeadersStable(d: Dialect, a: string, b: string, start: nat, so: Parsed)
    requires |so.table| == SLOTS
    requires Headers(d, a, start, so).end + 4 == |a| && so.end + 4 != |a| && LineEnd(a, |a| - 2)
    ensures Headers(d, a + b, start, so) == Headers(d, a, start, so)
    decreases |a| - start
  {
    hide LowerAll, StoreKnown, ValueAfter, NameEnd, Has;
    var e := NameEnd(a, start);
    NameStable(a, b, start);
    var value := ValueAfter(a, e);
    assert value.end + 3 < |a|;
    ValueAfterStable(a, b, e);
    assert (a + b)[start..e] == a[start..e];
    if !LastValue(a, value.end) {
      var table := StoreKnown(so.table, d.headerOf(LowerAll(a[start..e])), value);
      HeadersStable(d, a, b, value.end + 2, Parsed(table, value.end, so.count + 1));
    }
  }

  lemma ValueAfterStable(a: string, b: string, e: nat)
    requires e <= |a| && ValueAfter(a, e).end + 3 < |a|
    ensures ValueAfter(a + b, e) == ValueAfter(a, e)
    ensures LastValue(a + b, ValueAfter(a, e).end) == LastValue(a, ValueAfter(a, e).end)
  {
    SkipStable(a, b, e);
    ValueStable(a, b, SkipSeparators(a, e));
  }

  lemma HeadStable(d: Dialect, head: string, more: string)
    requires IsHead(d, head)
    ensures FindLine(d.version, head + more) == FindLine(d.version, head)
    ensures HeadersIn(d, head + more) == HeadersIn(d, head)
    ensures HasHead(head + more)
  {
    hide FindLine, Headers, LineEnd;
    LineStable(d.version, head, more);
    FindStable(head, more, BLANK_LINE, 0);
    BlankLineEnds(head);
    HeadersStable(d, head, more, FindLine(d.version, head).end + 2, Parsed(EmptyTable(), 0, 0));
  }

  lemma BlankLineEnds(head: string)
    requires |head| >= 4 && Find(head, BLANK_LINE, 0) == Some(|head| - 4)
    ensures LineEnd(head, |head| - 2)
  {
    FoundIsThere(head, BLANK_LINE, 0);
    assert head[|head| - 4..|head|][2] == '\r' && head[|head| - 4..|head|][3] == '\n';
  }

  lemma {:induction false} FoundIsThere(s: string, what: string, from: nat)
    requires Find(s, what, from).Some?
    ensures At(s, what, Find(s, what, from).value)
    decreases |s| - from
  {
    if !At(s, what, from) { FoundIsThere(s, what, from + 1); }
  }

  lemma NoHeadYet(head: string, part: string)
    requires part <= head && |part| < |head| && |head| >= 4 && Find(head, BLANK_LINE, 0) == Some(|head| - 4)
    ensures !HasHead(part)
  {
    assert part + head[|part|..] == head;
    if HasHead(part) { FindStable(part, head[|part|..], BLANK_LINE, 0); }
  }

  // ---- receiving

  function Concat(chunks: seq<string>): string {
    if chunks == [] then "" else Concat(chunks[..|chunks| - 1]) + chunks[|chunks| - 1]
  }

  /** onread for each chunk: append it and ask whether the document is complete. */
  function Feed(d: Dialect, s: Doc, chunks: seq<string>): (r: Doc)
    requires |s.table| == SLOTS
    ensures |r.table| == SLOTS
  {
    if chunks == [] then s
    else Checked(d, Append(Feed(d, s, chunks[..|chunks| - 1]), chunks[|chunks| - 1]))
  }

  lemma {:induction false} NoNul(chunk: string)
    requires !Has(chunk, '\0')
    ensures BeforeNul(chunk) == chunk
  {
    if chunk != "" {
      assert chunk[0] != '\0';
      assert forall i :: 0 <= i < |chunk| - 1 ==> chunk[1..][i] == chunk[i + 1];
      NoNul(chunk[1..]);
    }
  }

  /** The whole text taken in one go. */
  function OneGo(d: Dialect, text: string): (r: Doc)
    ensures |r.table| == SLOTS
  {
    Checked(d, EmptyDoc().(text := text))
  }

  /** What one go gives, once the head is there: the head's own table, and the rest as body. */
  lemma OneGoReads(d: Dialect, head: string, more: string)
    requires IsHead(d, head)
    ensures OneGo(d, head + more)
         == OneGo(d, head).(text := head + more, body := Range(|head|, |head| + |more|))
    ensures OneGo(d, head).verb != METHOD_UNKNOWN && OneGo(d, head).parsed
    ensures OneGo(d, head).table == HeadersIn(d, head).table
  {
    hide FindLine, Find, Headers, ParseLine, HasHead;
    assert head + "" == head;
    HeadStable(d, head, "");
    HeadStable(d, head, more);
    LineStable(d.version, head, more);
    LineReadStable(d, head, more);
  }

  lemma LineReadStable(d: Dialect, head: string, more: string)
    requires FindLine(d.version, head).Line?
    ensures ParseLine(d, EmptyDoc().(text := head + more)) == ParseLine(d, EmptyDoc().(text := head)).(text := head + more)
    ensures ParseLine(d, EmptyDoc().(text := head)).rsline.end == FindLine(d.version, head).end
    ensures ParseLine(d, EmptyDoc().(text := head)).verb != METHOD_UNKNOWN
    ensures SameHeaders(ParseLine(d, EmptyDoc().(text := head)), EmptyDoc().(text := head))
  {
    LineStable(d.version, head, more);
    var line := FindLine(d.version, head);
    assert (head + more)[0..line.sp1] == head[0..line.sp1];
    assert (head + more)[line.sp1 + 1..line.sp2] == head[line.sp1 + 1..line.sp2];
  }

  /** A further chunk after the head only makes the body longer. */
  lemma MoreBody(d: Dialect, head: string, more: string, chunk: string)
    requires IsHead(d, head) && !Has(chunk, '\0')
    ensures Checked(d, Append(OneGo(d, head + more), chunk)) == OneGo(d, head + (more + chunk))
  {
    hide OneGo, ParseLine, ParseHeaders, IsHead, HasHead, HeadersIn, BeforeNul, Has, FindLine;
    OneGoReads(d, head, more);
    OneGoReads(d, head, more + chunk);
    NoNul(chunk);
    HeadStable(d, head, more + chunk);
    assert head + more + chunk == head + (more + chunk);
  }

  lemma NothingReadYet(d: Dialect, head: string, text: string)
    requires IsHead(d, head) && |text| < |head| && text <= head
    ensures OneGo(d, text) == EmptyDoc().(text := text)
  {
    NoHeadYet(head, text);
  }

  /** The chunk after a text that has no whole head yet. */
  lemma StillInHead(d: Dialect, text: string, chunk: string)
    requires !Has(chunk, '\0')
    ensures Checked(d, Append(EmptyDoc().(text := text), chunk)) == OneGo(d, text + chunk)
  {
    NoNul(chunk);
  }

  /** Chunking does not matter: however a text is cut, the document after the last chunk is
      the one a single chunk would have given; before the head is whole, nothing is read. */
  lemma {:induction false} ChunkingDoesNotMatter(d: Dialect, head: string, chunks: seq<string>)
    requires IsHead(d, head)
    requires !Has(Concat(chunks), '\0')
    requires Concat(chunks) <= head || head <= Concat(chunks)
    ensures Feed(d, EmptyDoc(), chunks) == OneGo(d, Concat(chunks))
    ensures |Concat(chunks)| < |head| ==> Feed(d, EmptyDoc(), chunks) == EmptyDoc().(text := Concat(chunks))
    decreases |chunks|
  {
    hide OneGo, Checked, Has, EmptyDoc, Append;
    var text := Concat(chunks);
    if |text| < |head| { NothingReadYet(d, head, text); }
    if chunks == [] {
      assert EmptyDoc() == EmptyDoc().(text := "") by { NoText(); }
    } else {
      var front, chunk := chunks[..|chunks| - 1], chunks[|chunks| - 1];
      var before := Concat(front);
      assert text == before + chunk;
      assert text[..|before|] == before && text[|before|..] == chunk;
      PartsHaveNoNul(before, chunk);
      ChunkingDoesNotMatter(d, head, front);
      if |before| < |head| {
        StillInHead(d, before, chunk);
      } else {
        var more := before[|head|..];
        assert head + more == before && head + (more + chunk) == text;
        MoreBody(d, head, more, chunk);
      }
    }
  }

  lemma NoText()
    ensures EmptyDoc().(text := "") == EmptyDoc()
  {
  }

  lemma PartsHaveNoNul(a: string, b: string)
    requires !Has(a + b, '\0')
    ensures !Has(a, '\0') && !Has(b, '\0')
  {
    assert forall i :: 0 <= i < |a| ==> (a + b)[i] == a[i];
    assert forall i :: 0 <= i < |b| ==> (a + b)[|a| + i] == b[i];
  }
}
