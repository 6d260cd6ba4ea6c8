// A SIP or HTTP document: one string, and a table of index ranges into it. The builder
// keeps the table as it writes; the parser works it out from the string.

module WebDocument {
  import opened Common

  const MAX_HEADERS := 50
  const MAX_DUPLICATE_HEADERS := 3
  /** A header's number; what a header lookup may give, negative when it knows no such name;
      and what a method lookup may give. */
  type HeaderId = h: nat | h < 50
  type HeaderLookup = h: int | h < 50
  type MethodLookup = m: int | m != 10
  const SLOTS := MAX_HEADERS * MAX_DUPLICATE_HEADERS

  const RESPONSE := 9
  const METHOD_UNKNOWN := 10

  /** A substring: start inclusive, end exclusive. A header slot is free when end is 0. */
  datatype Range = Range(start: nat, end: nat)

  const EMPTY := Range(0, 0)

  /** What SIP and HTTP have different: the version, the names of the headers and methods,
      and the checksum lookups that take a lower-case name back to its number. NamesOk and
      MethodsOk, that the lookups give a name its own number, are assumptions: SIP's lookups
      take an int where those they are meant to override take an unsigned int, so the
      parser, written in the base class, calls the base class's own. */
  datatype Dialect = Dialect(
    version: string,
    names: seq<string>,
    methods: map<int, string>,
    headerOf: string -> HeaderLookup,
    methodOf: string -> MethodLookup,
    contentLength: HeaderId
  ) {
    ghost predicate Valid() { VersionOk() && NamesOk() && MethodsOk() }

    predicate VersionOk() { version != "" && !Has(version, ' ') && !Has(version, '\r') }

    ghost predicate NamesOk() {
      && |names| <= MAX_HEADERS
      && forall h :: 0 <= h < |names| ==> NameOk(names[h]) && headerOf(LowerAll(names[h])) == h
    }

    ghost predicate MethodsOk() {
      && METHOD_UNKNOWN !in methods
      && forall m :: m in methods ==> MethodOk(methods[m]) && methodOf(LowerAll(methods[m])) == m
    }

    predicate MethodOk(m: string) { m != "" && !Has(m, ' ') && !Has(m, '\r') && !(version <= m) }

    function NameOf(h: int): string { if 0 <= h < |names| then names[h] else "" }
    function MethodName(m: int): string { if m in methods then methods[m] else "" }
  }

  predicate Has(s: string, c: char) { exists i :: 0 <= i < |s| && s[i] == c }

  predicate NameOk(n: string) {
    n != "" && !Has(n, ' ') && !Has(n, ':') && !Has(n, '\r') && n[0] != '\t'
  }

  function Lower(c: char): char { if 'A' <= c <= 'Z' then (c as int + 32) as char else c }

  function LowerAll(s: string): (r: string)
    ensures |r| == |s| && forall i :: 0 <= i < |s| ==> r[i] == Lower(s[i])
  {
    seq(|s|, i requires 0 <= i < |s| => Lower(s[i]))
  }

  // ---- library calls: find, to_string and lexical_cast

  predicate At(s: string, what: string, i: nat) { i + |what| <= |s| && s[i..i + |what|] == what }

  function Find(s: string, what: string, from: nat): Option<nat>
    decreases |s| - from
  {
    if from + |what| > |s| then None
    else if At(s, what, from) then Some(from)
    else Find(s, what, from + 1)
  }

  function Digit(k: nat): char
    requires k < 10
  {
    "0123456789"[k]
  }

  function Decimal(n: nat): string {
    if n < 10 then [Digit(n)] else Decimal(n / 10) + [Digit(n % 10)]
  }

  function ToString(n: int): string { if n < 0 then "-" + Decimal(-n) else Decimal(n) }

  predicate IsDigit(c: char) { '0' <= c <= '9' }

  /** The number a string of digits stands for, the last digit the units. */
  function Natural(s: string): Option<nat> {
    if s == "" || !IsDigit(s[|s| - 1]) then None
    else
      var units := s[|s| - 1] as int - '0' as int;
      if |s| == 1 then Some(units)
      else match Natural(s[..|s| - 1])
           case None => None
           case Some(tens) => Some(10 * tens + units)
  }

  predicate Signed(s: string) { s != "" && (s[0] == '-' || s[0] == '+') }
  predicate Negative(s: string) { s != "" && s[0] == '-' }
  function Unsigned(s: string): string { if Signed(s) then s[1..] else s }

  function SignedBy(s: string, n: int): int { if Negative(s) then -n else n }

  const INT_MIN := -0x8000_0000
  const INT_MAX := 0x7FFF_FFFF
  const SIZE_RANGE := 0x1_0000_0000_0000_0000

  /** lexical_cast<int>, None where it throws. */
  function CastInt(s: string): Option<int> {
    match Natural(Unsigned(s))
    case None => None
    case Some(n) =>
      var v := SignedBy(s, n);
      if INT_MIN <= v <= INT_MAX then Some(v) else None
  }

  /** lexical_cast<size_t>, which takes a minus sign and wraps round. */
  function CastSize(s: string): Option<nat> {
    match Natural(Unsigned(s))
    case None => None
    case Some(n) =>
      if n >= SIZE_RANGE then None
      else if Negative(s) then Some((SIZE_RANGE - n) % SIZE_RANGE)
      else Some(n)
  }

  // ---- parsing

  predicate Blank(c: char) { c == ' ' || c == '\t' }
  predicate Separator(c: char) { c == ' ' || c == ':' }

  /** Where the name that starts at i ends: at the next colon or space. */
  function NameEnd(s: string, i: nat): (e: nat)
    ensures i <= e && (e <= |s| || e == i)
    decreases |s| - i
  {
    if i >= |s| || Separator(s[i]) then i else NameEnd(s, i + 1)
  }

  function SkipSeparators(s: string, i: nat): (e: nat)
    requires i <= |s|
    ensures i <= e <= |s|
    decreases |s| - i
  {
    if i < |s| && Separator(s[i]) then SkipSeparators(s, i + 1) else i
  }

  /** Where the value that goes on from i ends: at a CRLF that no space or tab follows.
      A CR before any other character hides that character. */
  function ValueEnd(s: string, i: nat): (e: nat)
    requires i <= |s|
    ensures i <= e <= |s|
    decreases |s| - i
  {
    if i == |s| then i
    else if s[i] != '\r' then ValueEnd(s, i + 1)
    else if i + 1 == |s| then i
    else if s[i + 1] != '\n' then ValueEnd(s, i + 2)
    else if i + 2 == |s| then i
    else if Blank(s[i + 2]) then ValueEnd(s, i + 3)
    else i
  }

  /** getheadervalue, for a name that ends at i. */
  function ValueAfter(s: string, i: nat): (r: Range)
    requires i <= |s|
    ensures i <= r.start <= r.end <= |s|
  {
    var start := SkipSeparators(s, i);
    Range(start, ValueEnd(s, start))
  }

  /** storeheader: the first free slot of the three; none free, nothing kept. */
  function Store(table: seq<Range>, h: HeaderId, r: Range): (t: seq<Range>)
    requires |table| == SLOTS
    ensures |t| == SLOTS
  {
    if table[h].end == 0 then table[h := r]
    else if table[h + MAX_HEADERS].end == 0 then table[h + MAX_HEADERS := r]
    else if table[h + 2 * MAX_HEADERS].end == 0 then table[h + 2 * MAX_HEADERS := r]
    else table
  }

  /** The result of the header loop; end is where the last value found ends. */
  datatype Parsed = Parsed(table: seq<Range>, end: nat, count: nat)

  function StoreKnown(table: seq<Range>, h: HeaderLookup, r: Range): (t: seq<Range>)
    requires |table| == SLOTS
    ensures |t| == SLOTS
  {
    if h < 0 then table else Store(table, h, r)
  }

  /** There is no header after the value that ends at e. */
  predicate LastValue(s: string, e: nat) {
    e + 3 >= |s| || (s[e + 2] == '\r' && s[e + 3] == '\n')
  }

  /** The header loop from the start of a name. */
  function Headers(d: Dialect, s: string, start: nat, so: Parsed): (p: Parsed)
    requires |so.table| == SLOTS
    ensures |p.table| == SLOTS
    decreases |s| - start
  {
    var e := NameEnd(s, start);
    if e >= |s| then so
    else
      var value := ValueAfter(s, e);
      var table := StoreKnown(so.table, d.headerOf(LowerAll(s[start..e])), value);
      if LastValue(s, value.end) then Parsed(table, value.end, so.count)
      else Headers(d, s, value.end + 2, Parsed(table, value.end, so.count + 1))
  }

  function Min(a: nat, b: nat): nat { if a < b then a else b }

  function EmptyTable(): seq<Range> { seq(SLOTS, _ => EMPTY) }

  datatype Doc = Doc(
    text: string,
    table: seq<Range>,
    body: Range,
    parsed: bool,
    count: nat,
    verb: int,
    status: int,
    methodstr: Range,
    codestr: Range,
    reason: Range,
    uri: Range,
    rsline: Range
  )

  /** A default-constructed document. */
  function EmptyDoc(): Doc { FromText("") }

  /** A document constructed on a string. */
  function FromText(text: string): Doc {
    var all := Range(0, |text|);
    Doc(text, EmptyTable(), all, false, 0, METHOD_UNKNOWN, -1, all, all, all, all, all)
  }

  /** The first line as the parser sees it: its two first spaces and its end. */
  datatype Line = Bad | Line(response: bool, sp1: nat, sp2: nat, end: nat)

  function FindLine(version: string, s: string): Line {
    var ver := Find(s, version, 0);
    var sp1 := Find(s, " ", 0);
    if ver.None? || sp1.None? then Bad
    else
      var sp2 := Find(s, " ", sp1.value + 1);
      var end := Find(s, "\r\n", 0);
      if sp2.None? || end.None? || sp2.value > end.value then Bad
      else Line(ver.value == 0, sp1.value, sp2.value, end.value)
  }

  function Slice(s: string, r: Range): string {
    if r.start <= r.end <= |s| then s[r.start..r.end] else ""
  }

  function StatusOf(s: string, code: Range): int {
    var c := CastInt(Slice(s, code));
    if c.None? then -1 else c.value
  }

  /** parsersline */
  function ParseLine(d: Dialect, s: Doc): Doc {
    var line := FindLine(d.version, s.text);
    if line.Bad? then s
    else if line.response then
      var code := Range(line.sp1 + 1, line.sp2);
      s.(rsline := Range(0, line.end), verb := RESPONSE, codestr := code, reason := Range(line.sp2, line.end),
         status := StatusOf(s.text, code))
    else
      s.(rsline := Range(0, line.end), methodstr := Range(0, line.sp1),
         verb := d.methodOf(LowerAll(Slice(s.text, Range(0, line.sp1)))), uri := Range(line.sp1 + 1, line.sp2))
  }

  /** parseheaders */
  function ParseHeaders(d: Dialect, s: Doc): (r: Doc)
    requires |s.table| == SLOTS
    ensures |r.table| == SLOTS
  {
    var p := Headers(d, s.text, s.rsline.end + 2, Parsed(s.table, 0, 0));
    s.(parsed := true, count := p.count, table := p.table, body := Range(Min(p.end + 4, |s.text|), |s.text|))
  }

  /** What every get function does first. */
  function Read(d: Dialect, s: Doc): (r: Doc)
    requires |s.table| == SLOTS
    ensures |r.table| == SLOTS
  {
    var s1 := if s.verb == METHOD_UNKNOWN then ParseLine(d, s) else s;
    if s1.parsed then s1 else ParseHeaders(d, s1)
  }

  // ---- building

  function Pad(code: int): string { (if code < 100 then "0" else "") + (if code < 10 then "0" else "") }

  function StatusLine(version: string, code: int, reason: string): string {
    version + " " + Pad(code) + ToString(code) + " " + reason
  }

  function Drop(s: string, n: nat): string { if n <= |s| then s[n..] else "" }

  function SetStatusLine(d: Dialect, s: Doc, code: int, reason: string): Doc {
    var line := StatusLine(d.version, code, reason) + "\r\n";
    var first := |d.version| + 1 + |Pad(code)|;
    var second := first + |ToString(code)|;
    s.(text := line + Drop(s.text, s.rsline.end), status := code, codestr := Range(first, second),
       reason := Range(second + 1, second + 1 + |reason|), rsline := Range(0, |line| - 1))
  }

  function RequestLine(version: string, name: string, uri: string): string {
    name + " " + uri + " " + version
  }

  function SetRequestLine(d: Dialect, s: Doc, m: int, uri: string): Doc {
    var name := d.MethodName(m);
    var line := RequestLine(d.version, name, uri);
    s.(text := line + "\r\n" + Drop(s.text, |line|), verb := m, methodstr := Range(s.methodstr.start, |name|),
       uri := Range(|name| + 1, |name| + 1 + |uri|), rsline := Range(s.rsline.start, |line|))
  }

  function Field(name: string, value: string): string { name + ": " + value + "\r\n" }

  /** The string edits of addheader stay inside the string. */
  predicate Editable(s: Doc) {
    && |s.table| == SLOTS
    && s.body.start <= s.body.end <= |s.text|
    && (s.count > 0 ==> |s.text| >= 2)
    && (s.count > 0 && s.body.start < s.body.end ==> s.body.start >= 2)
  }

  function AddHeader(d: Dialect, s: Doc, h: HeaderId, value: string): (r: Doc)
    requires Editable(s)
    ensures Editable(r)
  {
    if s.body.start == s.body.end then AddAtEnd(d, s, h, value) else AddBeforeBody(d, s, h, value)
  }

  /** With no body yet: take the last blank line off and write the field and the blank line. */
  function AddAtEnd(d: Dialect, s: Doc, h: HeaderId, value: string): (r: Doc)
    requires Editable(s) && s.body.start == s.body.end
    ensures Editable(r)
  {
    var kept := if s.count > 0 then s.text[..|s.text| - 2] else s.text;
    var start := |kept| + |d.NameOf(h)| + 2;
    s.(text := kept + Field(d.NameOf(h), value) + "\r\n", count := s.count + 1,
       table := Store(s.table, h, Range(start, start + |value|)))
  }

  /** With a body: the field goes in before the blank line. */
  function AddBeforeBody(d: Dialect, s: Doc, h: HeaderId, value: string): (r: Doc)
    requires Editable(s) && s.body.start < s.body.end
    ensures Editable(r)
  {
    var field := Field(d.NameOf(h), value);
    var at := if s.count == 0 then s.body.start else s.body.start - 2;
    var more := if s.count == 0 then field + "\r\n" else field;
    s.(text := s.text[..at] + more + s.text[at..], count := s.count + 1,
       table := Store(s.table, h, Range(s.body.start, s.body.start + |field| - 4)),
       body := Range(s.body.start + |field|, s.body.end + |field|))
  }

  function SetBody(s: Doc, body: string): (r: Doc)
    requires Editable(s)
    ensures |r.table| == SLOTS
  {
    var kept := if s.body.end != 0 then s.text[..s.body.start] + s.text[s.body.end..] else s.text;
    s.(text := kept + body, body := Range(|kept|, |kept| + |body|))
  }

  // ---- receiving

  /** A chunk is added up to its first NUL, but counted whole. */
  function BeforeNul(chunk: string): string {
    if chunk == "" || chunk[0] == '\0' then "" else [chunk[0]] + BeforeNul(chunk[1..])
  }

  function Append(s: Doc, chunk: string): (r: Doc)
    ensures r.table == s.table
  {
    var t := s.(text := s.text + BeforeNul(chunk));
    if s.parsed then t.(body := Range(s.body.start, s.body.end + |chunk|)) else t
  }

  predicate HasHead(text: string) { Find(text, "\r\n\r\n", 0).Some? }

  /** The document after iscomplete: read, once the head is there. */
  function Checked(d: Dialect, s: Doc): (r: Doc)
    requires |s.table| == SLOTS
    ensures |r.table| == SLOTS
  {
    if HasHead(s.text) then Read(d, s) else s
  }

  /** What iscomplete answers for a document whose head has been read. */
  predicate WholeBody(d: Dialect, s: Doc)
    requires |s.table| == SLOTS
  {
    var cl := s.table[d.contentLength];
    cl.end == 0
    || (CastSize(Slice(s.text, cl)).Some? && s.body.end - s.body.start >= CastSize(Slice(s.text, cl)).value)
  }

  predicate Complete(d: Dialect, s: Doc)
    requires |s.table| == SLOTS
  {
    HasHead(s.text) && WholeBody(d, Read(d, s))
  }
}
