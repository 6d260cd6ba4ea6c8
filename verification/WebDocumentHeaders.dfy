// The header fields of a document: where the builder puts each value, and what the parser
// finds there.

module WebDocumentHeaders {
  import opened WebDocument

  // ---- one value

  /** Scanning the value lands exactly on its end: each CR in it hides one further
      character of the value, or is a fold. */
  predicate Scans(v: string) {
    if v == "" then true
    else if v[0] != '\r' then Scans(v[1..])
    else if |v| == 1 then false
    else if v[1] != '\n' then Scans(v[2..])
    else |v| >= 3 && (v[2] == ' ' || v[2] == '\t') && Scans(v[3..])
  }

  predicate GoodValue(v: string) { Scans(v) && (v == "" || (v[0] != ' ' && v[0] != ':')) }

  /** After the value comes a line end and then something that is not a fold. */
  predicate EndsValue(post: string) {
    |post| >= 3 && post[0] == '\r' && post[1] == '\n' && post[2] != ' ' && post[2] != '\t'
  }

  lemma {:induction false} ValueEndIff(s: string, i: nat, v: string, post: string)
    requires i <= |s| && s[i..] == v + post && EndsValue(post)
    ensures ValueEnd(s, i) == i + |v| <==> Scans(v)
    decreases |v|
  {
    assert |s| == i + |v| + |post|;
    if v == "" {
      assert s[i..][0] == post[0] && s[i..][1] == post[1] && s[i..][2] == post[2];
    } else if v[0] != '\r' {
      assert s[i + 1..] == v[1..] + post;
      ValueEndIff(s, i + 1, v[1..], post);
    } else if |v| == 1 {
      assert s[i..][1] == post[0];
    } else if v[1] != '\n' {
      assert s[i..][1] == v[1];
      assert s[i + 2..] == v[2..] + post;
      ValueEndIff(s, i + 2, v[2..], post);
    } else {
      assert s[i..][1] == v[1];
      if |v| == 2 {
        assert s[i..][2] == post[0];
      } else {
        assert s[i..][2] == v[2];
        if Blank(v[2]) {
          assert s[i + 3..] == v[3..] + post;
          ValueEndIff(s, i + 3, v[3..], post);
        }
      }
    }
  }

  lemma {:induction false} SkippedTo(s: string, i: nat, v: string, post: string)
    requires i <= |s| && s[i..] == v + post && EndsValue(post)
    ensures SkipSeparators(s, i) == i <==> v == "" || (v[0] != ' ' && v[0] != ':')
  {
    if v == "" { assert s[i..][0] == post[0]; } else { assert s[i..][0] == v[0]; }
  }

  /** Exactly which values the parser finds where the builder put them. */
  lemma ValueFoundIff(s: string, i: nat, v: string, post: string)
    requires i <= |s| && s[i..] == ": " + v + post && EndsValue(post)
    ensures ValueAfter(s, i) == Range(i + 2, i + 2 + |v|) <==> GoodValue(v)
  {
    var colon := ": ";
    assert s[i..][0] == colon[0] && s[i..][1] == colon[1];
    assert s[i + 1..][0] == colon[1];
    assert s[i + 2..] == v + post;
    assert SkipSeparators(s, i) == SkipSeparators(s, i + 1) == SkipSeparators(s, i + 2);
    SkippedTo(s, i + 2, v, post);
    if SkipSeparators(s, i + 2) == i + 2 { ValueEndIff(s, i + 2, v, post); }
  }

  // ---- a list of headers

  datatype Header = Header(id: HeaderId, value: string)

  predicate KnownHeader(d: Dialect, h: Header) { h.id < |d.names| && GoodValue(h.value) }

  ghost predicate GoodHeaders(d: Dialect, hs: seq<Header>) { forall k :: 0 <= k < |hs| ==> KnownHeader(d, hs[k]) }

  function FieldOf(d: Dialect, h: Header): string { Field(d.NameOf(h.id), h.value) }

  function HeaderText(d: Dialect, hs: seq<Header>): string {
    if hs == [] then "" else FieldOf(d, hs[0]) + HeaderText(d, hs[1..])
  }

  function ValueRange(d: Dialect, off: nat, h: Header): Range {
    Range(off + |d.NameOf(h.id)| + 2, off + |d.NameOf(h.id)| + 2 + |h.value|)
  }

  /** The table for headers laid out one after the other from off. */
  ghost function Layout(d: Dialect, off: nat, hs: seq<Header>, table: seq<Range>): (t: seq<Range>)
    requires |table| == SLOTS
    ensures |t| == SLOTS
    decreases |hs|
  {
    if hs == [] then table
    else Layout(d, off + |FieldOf(d, hs[0])|, hs[1..], Store(table, hs[0].id, ValueRange(d, off, hs[0])))
  }

  // ---- names in any case

  /** The same character, or the two cases of one ASCII letter. */
  predicate SameLetter(a: char, b: char) {
    || a == b
    || ('A' <= a <= 'Z' && b as int == a as int + 32)
    || ('A' <= b <= 'Z' && a as int == b as int + 32)
  }

  predicate SameName(a: string, b: string) { |a| == |b| && forall i :: 0 <= i < |a| ==> SameLetter(a[i], b[i]) }

  /** The parser looks two names up alike exactly when they differ in case only. */
  lemma LookedUpAlikeIff(a: string, b: string)
    ensures LowerAll(a) == LowerAll(b) <==> SameName(a, b)
  {
    if LowerAll(a) == LowerAll(b) {
      assert |a| == |LowerAll(a)| == |b|;
      forall i | 0 <= i < |a| ensures SameLetter(a[i], b[i]) { assert LowerAll(a)[i] == LowerAll(b)[i]; }
    }
    if SameName(a, b) {
      forall i | 0 <= i < |a| ensures LowerAll(a)[i] == LowerAll(b)[i] { assert SameLetter(a[i], b[i]); }
    }
  }

  lemma SameNameOk(a: string, b: string)
    requires SameName(a, b) && NameOk(b)
    ensures NameOk(a)
  {
    assert SameLetter(a[0], b[0]);
    forall i | 0 <= i < |a| ensures a[i] != ' ' && a[i] != ':' && a[i] != '\r' { assert SameLetter(a[i], b[i]); }
  }

  /** ns are spellings of the names of hs. */
  ghost predicate Spelled(d: Dialect, hs: seq<Header>, ns: seq<string>) {
    |ns| == |hs| && forall k :: 0 <= k < |hs| ==> hs[k].id < |d.names| && SameName(ns[k], d.names[hs[k].id])
  }

  function SpelledText(hs: seq<Header>, ns: seq<string>): string
    requires |ns| == |hs|
  {
    if hs == [] then "" else Field(ns[0], hs[0].value) + SpelledText(hs[1..], ns[1..])
  }

  /** The names as the builder writes them. */
  function OwnNames(d: Dialect, hs: seq<Header>): (ns: seq<string>)
    ensures |ns| == |hs|
  {
    if hs == [] then [] else [d.NameOf(hs[0].id)] + OwnNames(d, hs[1..])
  }

  lemma {:induction false} OwnNamesSpell(d: Dialect, hs: seq<Header>)
    requires GoodHeaders(d, hs)
    ensures Spelled(d, hs, OwnNames(d, hs)) && SpelledText(hs, OwnNames(d, hs)) == HeaderText(d, hs)
    decreases |hs|
  {
    if hs != [] {
      var ns := OwnNames(d, hs);
      GoodTail(d, hs);
      OwnNamesSpell(d, hs[1..]);
      assert ns[1..] == OwnNames(d, hs[1..]);
      forall k | 0 <= k < |hs| ensures hs[k].id < |d.names| && SameName(ns[k], d.names[hs[k].id]) {
        if k > 0 { assert ns[k] == ns[1..][k - 1] && hs[k] == hs[1..][k - 1]; } else { assert KnownHeader(d, hs[0]); }
      }
    }
  }

  // ---- the parser

  lemma {:induction false} NameFound(s: string, i: nat, name: string, post: string)
    requires i <= |s| && s[i..] == name + post && post != "" && post[0] == ':'
    requires !Has(name, ' ') && !Has(name, ':')
    ensures NameEnd(s, i) == i + |name|
    decreases |name|
  {
    if name == "" {
      assert s[i..][0] == post[0];
    } else {
      assert s[i..][0] == name[0];
      assert s[i + 1..] == name[1..] + post;
      forall c | !Has(name, c) ensures !Has(name[1..], c) {}
      NameFound(s, i + 1, name[1..], post);
    }
  }

  lemma FieldAt(s: string, off: nat, name: string, value: string, post: string)
    requires NameOk(name) && GoodValue(value) && NextLine(post)
    requires off <= |s| && s[off..] == Field(name, value) + post
    ensures NameEnd(s, off) == off + |name| < |s|
    ensures s[off..off + |name|] == name
    ensures ValueAfter(s, off + |name|) == Range(off + |name| + 2, off + |name| + 2 + |value|)
  {
    var rest := ": " + value + ("\r\n" + post);
    assert s[off..] == name + rest;
    NameFound(s, off, name, rest);
    assert s[off + |name|..] == rest;
    ValueFoundIff(s, off + |name|, value, "\r\n" + post);
  }

  /** One turn of the header loop. */
  lemma Turn(d: Dialect, s: string, off: nat, e: nat, id: HeaderId, so: Parsed)
    requires |so.table| == SLOTS
    requires off <= e < |s| && NameEnd(s, off) == e && d.headerOf(LowerAll(s[off..e])) == id
    ensures var value := ValueAfter(s, e);
            var table := Store(so.table, id, value);
            Headers(d, s, off, so) == (if LastValue(s, value.end) then Parsed(table, value.end, so.count)
                                       else Headers(d, s, value.end + 2, Parsed(table, value.end, so.count + 1)))
  {
  }

  predicate NextLine(post: string) { post != "" && post[0] != ' ' && post[0] != '\t' }

  /** The text of a list of headers up to the end of the document. */
  function Tail(d: Dialect, hs: seq<Header>, body: string): string { HeaderText(d, hs) + "\r\n" + body }

  function SpelledTail(hs: seq<Header>, ns: seq<string>, body: string): string
    requires |ns| == |hs|
  {
    SpelledText(hs, ns) + "\r\n" + body
  }

  lemma FirstSpelled(d: Dialect, hs: seq<Header>, ns: seq<string>)
    requires d.NamesOk() && GoodHeaders(d, hs) && Spelled(d, hs, ns) && hs != []
    ensures |ns| == |hs| && hs[0].id < |d.names|
    ensures KnownHeader(d, hs[0]) && SameName(ns[0], d.names[hs[0].id]) && NameOk(ns[0])
    ensures GoodHeaders(d, hs[1..]) && Spelled(d, hs[1..], ns[1..])
  {
    SameNameOk(ns[0], d.names[hs[0].id]);
  }

  lemma TailStarts(d: Dialect, hs: seq<Header>, ns: seq<string>, body: string)
    requires d.NamesOk() && GoodHeaders(d, hs) && Spelled(d, hs, ns)
    ensures var tail := SpelledTail(hs, ns, body);
            && |tail| >= 2 && NextLine(tail)
            && (if hs == [] then tail[0] == '\r' && tail[1] == '\n' else tail[0] != '\r')
  {
    if hs != [] {
      FirstSpelled(d, hs, ns);
      assert SpelledTail(hs, ns, body)[0] == ns[0][0];
    }
  }

  lemma TailSplits(hs: seq<Header>, ns: seq<string>, body: string)
    requires |ns| == |hs| && hs != []
    ensures SpelledTail(hs, ns, body) == Field(ns[0], hs[0].value) + SpelledTail(hs[1..], ns[1..], body)
    ensures |SpelledText(hs, ns)| == |Field(ns[0], hs[0].value)| + |SpelledText(hs[1..], ns[1..])|
  {
    hide Field;
    Grouped(Field(ns[0], hs[0].value), SpelledText(hs[1..], ns[1..]), body);
  }

  lemma Grouped(field: string, more: string, body: string)
    ensures field + more + "\r\n" + body == field + (more + "\r\n" + body)
  {
  }

  /** The text goes on as t from off. */
  predicate Rest(s: string, off: nat, t: string) { off <= |s| && s[off..] == t }

  /** What the header loop has once it has read the first header at off. */
  function Taken(d: Dialect, off: nat, h: Header, so: Parsed, more: nat): Parsed
    requires |so.table| == SLOTS
  {
    Parsed(Store(so.table, h.id, ValueRange(d, off, h)), ValueRange(d, off, h).end, so.count + more)
  }

  lemma OneHeader(d: Dialect, s: string, off: nat, h: Header, name: string, post: string, so: Parsed)
    requires d.NamesOk() && KnownHeader(d, h) && SameName(name, d.names[h.id])
    requires NextLine(post) && |post| >= 2 && |so.table| == SLOTS
    requires Rest(s, off, Field(name, h.value) + post)
    ensures var next := off + |FieldOf(d, h)|;
            && Rest(s, next, post)
            && Headers(d, s, off, so) == if post[0] == '\r' && post[1] == '\n' then Taken(d, off, h, so, 0)
                                         else Headers(d, s, next, Taken(d, off, h, so, 1))
  {
    hide *;
    KnownField(d, off, h, name);
    var field := Field(name, h.value);
    assert s[off..] == field + post by { RestIs(s, off, field + post); }
    FieldAt(s, off, name, h.value, post);
    AfterField(s, off, field, post);
    LastIff(s, off + |field| - 2, post);
    TurnTakes(d, s, off, h, so);
    assert Rest(s, off + |field|, post) by { IsRest(s, off + |field|, post); }
  }

  lemma RestIs(s: string, off: nat, t: string)
    requires Rest(s, off, t)
    ensures off <= |s| && s[off..] == t
  {
  }

  lemma IsRest(s: string, off: nat, t: string)
    requires off <= |s| && s[off..] == t
    ensures Rest(s, off, t)
  {
  }

  /** A known header under any spelling of its name. */
  lemma KnownField(d: Dialect, off: nat, h: Header, name: string)
    requires d.NamesOk() && KnownHeader(d, h) && SameName(name, d.names[h.id])
    ensures h.id < |d.names| && NameOk(name) && d.headerOf(LowerAll(name)) == h.id && GoodValue(h.value)
    ensures |name| == |d.names[h.id]| && |Field(name, h.value)| == |FieldOf(d, h)| == |name| + |h.value| + 4
    ensures ValueRange(d, off, h) == Range(off + |name| + 2, off + |Field(name, h.value)| - 2)
  {
    SameNameOk(name, d.names[h.id]);
    LookedUpAlikeIff(name, d.names[h.id]);
  }

  /** The turn of the loop that reads a header, once its parts have been found. */
  lemma TurnTakes(d: Dialect, s: string, off: nat, h: Header, so: Parsed)
    requires h.id < |d.names| && |so.table| == SLOTS
    requires var e := off + |d.names[h.id]|;
             && NameEnd(s, off) == e < |s| && d.headerOf(LowerAll(s[off..e])) == h.id
             && ValueAfter(s, e) == ValueRange(d, off, h)
    ensures var end := ValueRange(d, off, h).end;
            Headers(d, s, off, so) == if LastValue(s, end) then Taken(d, off, h, so, 0)
                                      else Headers(d, s, end + 2, Taken(d, off, h, so, 1))
  {
    Turn(d, s, off, off + |d.names[h.id]|, h.id, so);
  }

  lemma LastIff(s: string, e: nat, post: string)
    requires e + 2 <= |s| && s[e + 2..] == post && |post| >= 2
    ensures LastValue(s, e) <==> post[0] == '\r' && post[1] == '\n'
  {
    assert post[0] == s[e + 2] && post[1] == s[e + 3];
  }

  lemma GoodTail(d: Dialect, hs: seq<Header>)
    requires GoodHeaders(d, hs) && hs != []
    ensures KnownHeader(d, hs[0]) && GoodHeaders(d, hs[1..])
  {
  }

  lemma FirstHeaderParsed(d: Dialect, s: string, off: nat, hs: seq<Header>, ns: seq<string>, body: string, so: Parsed)
    requires d.NamesOk() && GoodHeaders(d, hs) && Spelled(d, hs, ns) && hs != [] && |so.table| == SLOTS
    requires Rest(s, off, SpelledTail(hs, ns, body))
    ensures var next := off + |FieldOf(d, hs[0])|;
            && Rest(s, next, SpelledTail(hs[1..], ns[1..], body))
            && Headers(d, s, off, so) == if hs[1..] == [] then Taken(d, off, hs[0], so, 0)
                                         else Headers(d, s, next, Taken(d, off, hs[0], so, 1))
  {
    hide *;
    FirstSpelled(d, hs, ns);
    TailSplits(hs, ns, body);
    TailStarts(d, hs[1..], ns[1..], body);
    OneHeader(d, s, off, hs[0], ns[0], SpelledTail(hs[1..], ns[1..], body), so);
  }

  /** What taking the first header means for the table, and where its field ends. */
  lemma LayoutTakes(d: Dialect, off: nat, hs: seq<Header>, so: Parsed, more: nat)
    requires hs != [] && |so.table| == SLOTS
    ensures var t := Taken(d, off, hs[0], so, more); var next := off + |FieldOf(d, hs[0])|;
            && |t.table| == SLOTS && t.count == so.count + more && t.end + 2 == next
            && Layout(d, off, hs, so.table) == Layout(d, next, hs[1..], t.table)
            && (hs[1..] == [] ==> Layout(d, off, hs, so.table) == t.table)
  {
  }

  /** The header loop goes through the fields one by one and stops at the blank line, however
      the names are spelled. */
  lemma {:induction false} ParserReadsAnyCase(d: Dialect, s: string, off: nat, hs: seq<Header>, ns: seq<string>,
                                              body: string, so: Parsed, r: Parsed)
    requires d.NamesOk() && GoodHeaders(d, hs) && Spelled(d, hs, ns) && hs != [] && |so.table| == SLOTS
    requires Rest(s, off, SpelledTail(hs, ns, body)) && r == Headers(d, s, off, so)
    ensures r.table == Layout(d, off, hs, so.table)
    ensures r.end == off + |HeaderText(d, hs)| - 2
    ensures r.count == so.count + |hs| - 1
    decreases |hs|
  {
    hide *;
    FirstSpelled(d, hs, ns);
    FirstHeaderParsed(d, s, off, hs, ns, body, so);
    LayoutTakes(d, off, hs, so, if hs[1..] == [] then 0 else 1);
    TextSplits(d, hs);
    if hs[1..] != [] {
      ParserReadsAnyCase(d, s, off + |FieldOf(d, hs[0])|, hs[1..], ns[1..], body, Taken(d, off, hs[0], so, 1), r);
    }
  }

  lemma TextSplits(d: Dialect, hs: seq<Header>)
    requires hs != []
    ensures |HeaderText(d, hs)| == |FieldOf(d, hs[0])| + |HeaderText(d, hs[1..])|
    ensures hs[1..] == [] ==> |HeaderText(d, hs)| == |FieldOf(d, hs[0])|
  {
  }

  /** In particular as the builder spells them. */
  lemma ParserFollowsLayout(d: Dialect, s: string, off: nat, hs: seq<Header>, body: string, so: Parsed, r: Parsed)
    requires d.NamesOk() && GoodHeaders(d, hs) && hs != [] && |so.table| == SLOTS
    requires Rest(s, off, Tail(d, hs, body)) && r == Headers(d, s, off, so)
    ensures r.table == Layout(d, off, hs, so.table)
    ensures r.end == off + |HeaderText(d, hs)| - 2
    ensures r.count == so.count + |hs| - 1
  {
    hide Rest, Headers, Layout, HeaderText, Spelled, GoodHeaders;
    OwnNamesSpell(d, hs);
    ParserReadsAnyCase(d, s, off, hs, OwnNames(d, hs), body, so, r);
  }

  // ---- other text

  /** A header whose name the dialect does not know is passed over, and the loop goes on. */
  lemma UnknownHeaderSkipped(d: Dialect, s: string, off: nat, name: string, value: string, post: string, so: Parsed)
    requires NameOk(name) && d.headerOf(LowerAll(name)) < 0 && GoodValue(value)
    requires NextLine(post) && |post| >= 2 && |so.table| == SLOTS
    requires Rest(s, off, Field(name, value) + post)
    ensures var next := off + |Field(name, value)|;
            && Rest(s, next, post)
            && Headers(d, s, off, so) == if post[0] == '\r' && post[1] == '\n' then Parsed(so.table, next - 2, so.count)
                                         else Headers(d, s, next, Parsed(so.table, next - 2, so.count + 1))
  {
    hide *;
    var field := Field(name, value);
    FieldLength(name, value);
    assert s[off..] == field + post by { RestIs(s, off, field + post); }
    FieldAt(s, off, name, value, post);
    AfterField(s, off, field, post);
    LastIff(s, off + |field| - 2, post);
    UnknownTurn(d, s, off, off + |name|, so);
    assert Rest(s, off + |field|, post) by { IsRest(s, off + |field|, post); }
  }

  lemma FieldLength(name: string, value: string)
    ensures |Field(name, value)| == |name| + |value| + 4
  {
  }

  lemma UnknownTurn(d: Dialect, s: string, off: nat, e: nat, so: Parsed)
    requires |so.table| == SLOTS
    requires off <= e < |s| && NameEnd(s, off) == e && d.headerOf(LowerAll(s[off..e])) < 0
    ensures var end := ValueAfter(s, e).end;
            Headers(d, s, off, so) == if LastValue(s, end) then Parsed(so.table, end, so.count)
                                      else Headers(d, s, end + 2, Parsed(so.table, end, so.count + 1))
  {
  }

  /** A name that is not followed by a colon or a space, up to the end, is no header. */
  lemma UnfinishedNameIgnored(d: Dialect, s: string, off: nat, so: Parsed)
    requires off <= |s| && |so.table| == SLOTS && forall i :: off <= i < |s| ==> s[i] != ' ' && s[i] != ':'
    ensures Headers(d, s, off, so) == so
  {
    NoNameEnd(s, off);
  }

  lemma {:induction false} NoNameEnd(s: string, i: nat)
    requires i <= |s| && forall k :: i <= k < |s| ==> s[k] != ' ' && s[k] != ':'
    ensures NameEnd(s, i) == |s|
    decreases |s| - i
  {
    if i < |s| { NoNameEnd(s, i + 1); }
  }

  lemma AfterField(s: string, off: nat, field: string, post: string)
    requires off <= |s| && s[off..] == field + post && |field| >= 2 && |post| >= 2
    ensures off + |field| + 1 < |s|
    ensures s[off + |field|..] == post
    ensures s[off + |field|] == post[0] && s[off + |field| + 1] == post[1]
  {
    assert s[off..][|field|] == post[0] && s[off..][|field| + 1] == post[1];
  }

  // ---- the builder

  ghost function AddHeaders(d: Dialect, s: Doc, hs: seq<Header>): (r: Doc)
    requires Editable(s)
    ensures Editable(r)
    decreases |hs|
  {
    if hs == [] then s
    else
      AddHeaders(d, AddHeader(d, s, hs[0].id, hs[0].value), hs[1..])
  }

  /** The text while headers are added: a base, and a blank line once there is a header. */
  predicate Written(s: Doc, base: string) {
    s.text == base + (if s.count > 0 then "\r\n" else "") && s.body == EMPTY
  }

  /** Adding headers leaves what the first line set alone. */
  predicate SameFirstLine(a: Doc, b: Doc) {
    && a.verb == b.verb && a.status == b.status && a.parsed == b.parsed && a.rsline == b.rsline
    && a.methodstr == b.methodstr && a.codestr == b.codestr && a.reason == b.reason && a.uri == b.uri
  }

  lemma HeaderWritten(d: Dialect, s: Doc, base: string, h: Header)
    requires Editable(s) && Written(s, base)
    ensures var t := AddHeader(d, s, h.id, h.value);
            && Written(t, base + FieldOf(d, h))
            && t.table == Store(s.table, h.id, ValueRange(d, |base|, h))
            && t.count == s.count + 1
            && SameFirstLine(t, s)
  {
    if s.count > 0 { assert s.text[..|s.text| - 2] == base; }
  }

  lemma {:induction false} BuilderWrites(d: Dialect, s: Doc, base: string, hs: seq<Header>, r: Doc)
    requires Editable(s) && Written(s, base) && r == AddHeaders(d, s, hs)
    ensures Written(r, base + HeaderText(d, hs))
    ensures r.count == s.count + |hs|
    ensures SameFirstLine(r, s)
    decreases |hs|
  {
    if hs == [] {
      assert base + HeaderText(d, hs) == base;
    } else {
      HeaderWritten(d, s, base, hs[0]);
      BuilderWrites(d, AddHeader(d, s, hs[0].id, hs[0].value), base + FieldOf(d, hs[0]), hs[1..], r);
      TextGrows(d, base, hs);
    }
  }

  lemma {:induction false} BuilderFollowsLayout(d: Dialect, s: Doc, base: string, hs: seq<Header>, r: Doc)
    requires Editable(s) && Written(s, base) && r == AddHeaders(d, s, hs)
    ensures r.table == Layout(d, |base|, hs, s.table)
    decreases |hs|
  {
    if hs != [] {
      HeaderWritten(d, s, base, hs[0]);
      TextGrows(d, base, hs);
      BuilderFollowsLayout(d, AddHeader(d, s, hs[0].id, hs[0].value), base + FieldOf(d, hs[0]), hs[1..], r);
    }
  }

  lemma TextGrows(d: Dialect, base: string, hs: seq<Header>)
    requires hs != []
    ensures base + FieldOf(d, hs[0]) + HeaderText(d, hs[1..]) == base + HeaderText(d, hs)
    ensures |base + FieldOf(d, hs[0])| == |base| + |FieldOf(d, hs[0])|
  {
    hide FieldOf;
    Associates(base, FieldOf(d, hs[0]), HeaderText(d, hs[1..]));
  }

  lemma Associates(a: string, b: string, c: string)
    ensures a + b + c == a + (b + c)
  {
  }
}
