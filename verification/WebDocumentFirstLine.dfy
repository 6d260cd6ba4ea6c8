// The first line of a document, written and read back.

module WebDocumentFirstLine {
  import opened Common
  import opened WebDocument

  datatype First = Status(code: int, reason: string) | Request(verb: int, uri: string)

  predicate LineEnd(s: string, i: nat) { i + 1 < |s| && s[i] == '\r' && s[i + 1] == '\n' }

  predicate NoLineEnd(s: string) { forall i :: 0 <= i < |s| ==> !LineEnd(s, i) }

  predicate GoodFirst(d: Dialect, f: First) {
    match f
    case Status(code, reason) => INT_MIN <= code <= INT_MAX && NoLineEnd(reason)
    case Request(verb, uri) => verb in d.methods && NoLineEnd(uri)
  }

  function FirstText(d: Dialect, f: First): string {
    match f
    case Status(code, reason) => StatusLine(d.version, code, reason)
    case Request(verb, uri) => RequestLine(d.version, d.MethodName(verb), uri)
  }

  function SetFirst(d: Dialect, s: Doc, f: First): Doc {
    match f
    case Status(code, reason) => SetStatusLine(d, s, code, reason)
    case Request(verb, uri) => SetRequestLine(d, s, verb, uri)
  }

  lemma {:induction false} FoundAt(s: string, what: string, from: nat, at: nat)
    requires from <= at && At(s, what, at)
    requires forall i :: from <= i < at ==> !At(s, what, i)
    ensures Find(s, what, from) == Some(at)
    decreases at - from
  {
    if from < at { FoundAt(s, what, from + 1, at); }
  }

  lemma {:induction false} FoundBy(s: string, what: string, from: nat, at: nat)
    requires from <= at && At(s, what, at)
    ensures Find(s, what, from).Some? && from <= Find(s, what, from).value <= at
    ensures At(s, what, Find(s, what, from).value)
    decreases at - from
  {
    if !At(s, what, from) { FoundBy(s, what, from + 1, at); }
  }

  lemma SpaceAt(s: string, from: nat, at: nat)
    requires from <= at < |s| && s[at] == ' '
    requires forall i :: from <= i < at ==> s[i] != ' '
    ensures Find(s, " ", from) == Some(at)
  {
    assert s[at..at + 1] == " ";
    forall i | from <= i < at ensures !At(s, " ", i) { assert s[i..i + 1][0] == s[i]; }
    FoundAt(s, " ", from, at);
  }

  lemma LineEndAt(line: string, more: string)
    requires NoLineEnd(line)
    ensures Find(line + "\r\n" + more, "\r\n", 0) == Some(|line|)
  {
    var s := line + "\r\n" + more;
    assert s[|line|..|line| + 2] == "\r\n";
    forall i | 0 <= i < |line| ensures !At(s, "\r\n", i) {
      assert s[i..i + 2][0] == s[i] && s[i..i + 2][1] == s[i + 1];
      assert !LineEnd(line, i);
    }
    FoundAt(s, "\r\n", 0, |line|);
  }

  lemma {:induction false} DecimalIsDigits(n: nat)
    ensures Decimal(n) != "" && forall i :: 0 <= i < |Decimal(n)| ==> IsDigit(Decimal(n)[i])
    ensures Natural(Decimal(n)) == Some(n)
    decreases n
  {
    if n >= 10 {
      DecimalIsDigits(n / 10);
      assert Decimal(n)[..|Decimal(n)| - 1] == Decimal(n / 10);
    }
  }

  lemma LeadingZero(s: string)
    requires Natural(s).Some?
    ensures Natural("0" + s) == Natural(s)
    decreases |s|
  {
    var z := "0" + s;
    assert z[|z| - 1] == s[|s| - 1];
    if |s| == 1 {
      assert z[..1] == "0";
      assert Natural("0") == Some(0);
    } else {
      LeadingZero(s[..|s| - 1]);
      assert z[..|z| - 1] == "0" + s[..|s| - 1];
    }
  }

  lemma {:induction false} NotANumber(s: string, i: nat)
    requires i < |s| && !IsDigit(s[i])
    ensures Natural(s).None?
    decreases |s|
  {
    if IsDigit(s[|s| - 1]) { NotANumber(s[..|s| - 1], i); }
  }

  function CodeText(code: int): string { Pad(code) + ToString(code) }

  lemma CodeTextHasNo(code: int, c: char)
    requires c == ' ' || c == '\r'
    ensures !Has(CodeText(code), c)
  {
    DecimalIsDigits(if code < 0 then -code else code);
  }

  lemma CastDigits(t: string, n: nat)
    requires t != "" && IsDigit(t[0]) && Natural(t) == Some(n) && n <= INT_MAX
    ensures CastInt(t) == Some(n)
  {
    assert Unsigned(t) == t;
  }

  lemma ZeroBefore(t: string, n: nat)
    requires t != "" && Natural(t) == Some(n) && n <= INT_MAX
    ensures Natural("0" + t) == Some(n) && CastInt("0" + t) == Some(n)
  {
    LeadingZero(t);
    CastDigits("0" + t, n);
  }

  /** The conversions read back what is written, a plus sign included, within their range: an int
      exactly if it is one, and a size_t modulo 2^64 if its digits are below that, so that a
      negative number becomes a very large one. */
  lemma CastsReadBack(n: int)
    ensures CastInt(ToString(n)) == (if -2147483648 <= n <= 2147483647 then Some(n) else None)
    ensures CastSize(ToString(n)) == if -SIZE_RANGE < n < SIZE_RANGE then Some(n % SIZE_RANGE) else None
  {
    var k: nat := if n < 0 then -n else n;
    DecimalIsDigits(k);
    var t := Decimal(k);
    assert IsDigit(t[0]) && ToString(n) == if n < 0 then "-" + t else t;
    hide Decimal, Natural, CastInt, CastSize;
    DigitsCast(t, k);
    if n < 0 { NegativeWraps(k); } else if n < SIZE_RANGE { Within(n); }
  }

  lemma DigitsCast(t: string, k: nat)
    requires t != "" && IsDigit(t[0]) && Natural(t) == Some(k)
    ensures CastInt(t) == (if k <= INT_MAX then Some(k) else None)
    ensures CastInt("-" + t) == (if 0 - k >= INT_MIN then Some(0 - k) else None)
    ensures CastSize(t) == (if k < SIZE_RANGE then Some(k) else None)
    ensures CastSize("-" + t) == (if k < SIZE_RANGE then Some((SIZE_RANGE - k) % SIZE_RANGE) else None)
  {
    hide Natural;
    var s := "-" + t;
    assert s[0] == '-' && s[1..] == t && Unsigned(s) == t && Unsigned(t) == t;
  }

  lemma NegativeWraps(k: nat)
    ensures (SIZE_RANGE - k) % SIZE_RANGE == (0 - k) % SIZE_RANGE
  {
    AddMultiple(0 - k, SIZE_RANGE, 1);
  }

  lemma Within(n: nat)
    requires n < SIZE_RANGE
    ensures n % SIZE_RANGE == n
  {
  }

  lemma PlusReadsBack(n: nat)
    ensures CastInt("+" + Decimal(n)) == CastInt(Decimal(n)) && CastSize("+" + Decimal(n)) == CastSize(Decimal(n))
  {
    DecimalIsDigits(n);
    assert IsDigit(Decimal(n)[0]);
    assert ("+" + Decimal(n))[0] == '+' && ("+" + Decimal(n))[1..] == Decimal(n);
  }

  /** Anything but digits after the sign cannot be read. */
  lemma NotReadBack(s: string, i: nat)
    requires i < |s| && !IsDigit(s[i]) && (i > 0 || (s[0] != '-' && s[0] != '+'))
    ensures CastInt(s) == None && CastSize(s) == None
  {
    if Signed(s) { NotANumber(s[1..], i - 1); } else { NotANumber(s, i); }
  }

  /** The zeros that pad a code to three places leave a code from 0 up alone, and make a
      negative one unreadable. */
  lemma CodeReadBack(code: int)
    requires INT_MIN <= code <= INT_MAX
    ensures CastInt(CodeText(code)) == if code < 0 then None else Some(code)
  {
    if code < 0 {
      assert CodeText(code)[2] == '-';
      NotANumber(CodeText(code), 2);
    } else {
      DecimalIsDigits(code);
      assert CodeText(code) == Pad(code) + Decimal(code);
      CastDigits(Decimal(code), code);
      ZeroBefore(Decimal(code), code);
      if code < 10 {
        ZeroBefore("0" + Decimal(code), code);
        assert CodeText(code) == "0" + ("0" + Decimal(code));
      } else if code < 100 {
        assert CodeText(code) == "0" + Decimal(code);
      } else {
        assert CodeText(code) == Decimal(code);
      }
    }
  }

  lemma StatusRead(s: string, r: Range, code: int)
    requires INT_MIN <= code <= INT_MAX && Slice(s, r) == CodeText(code)
    ensures StatusOf(s, r) == if code < 0 then -1 else code
  {
    CodeReadBack(code);
  }

  lemma StatusLineFound(d: Dialect, code: int, reason: string, more: string)
    requires d.VersionOk() && NoLineEnd(reason)
    ensures var first := |d.version| + 1;
            var line := StatusLine(d.version, code, reason);
            && FindLine(d.version, line + "\r\n" + more)
            == Line(true, |d.version|, first + |CodeText(code)|, |line|)
            && Slice(line + "\r\n" + more, Range(first, first + |CodeText(code)|)) == CodeText(code)
  {
    hide *;
    var number, line := CodeText(code), StatusLine(d.version, code, reason);
    var s := line + "\r\n" + more;
    StatusText(d.version, code, reason);
    CodeTextHasNo(code, ' ');
    CodeTextHasNo(code, '\r');
    StatusLineHasNoEnd(d, number, reason);
    LineEndAt(line, more);
    StatusParts(d.version, number, reason, more, s);
    NoSpaceIn(d);
    SpacesFound(s, d.version, number);
    StatusFound(s, d.version, number, |line|);
  }

  lemma StatusText(version: string, code: int, reason: string)
    ensures StatusLine(version, code, reason) == version + " " + CodeText(code) + " " + reason
  {
  }

  lemma NoSpaceIn(d: Dialect)
    requires d.VersionOk()
    ensures !Has(d.version, ' ')
  {
  }

  lemma StatusFound(s: string, version: string, number: string, end: nat)
    requires Find(s, version, 0) == Some(0) && Find(s, " ", 0) == Some(|version|)
    requires Find(s, " ", |version| + 1) == Some(|version| + 1 + |number|) && Find(s, "\r\n", 0) == Some(end)
    requires PartsAt(s, version, number) && |version| + 1 + |number| <= end
    ensures FindLine(version, s) == Line(true, |version|, |version| + 1 + |number|, end)
    ensures Slice(s, Range(|version| + 1, |version| + 1 + |number|)) == number
  {
  }

  /** Where the parts of a status line are. */
  predicate PartsAt(s: string, version: string, number: string) {
    var second := |version| + 1 + |number|;
    && second < |s| && s[..|version|] == version && s[|version| + 1..second] == number
    && s[|version|] == ' ' && s[second] == ' '
  }

  lemma StatusParts(version: string, number: string, reason: string, more: string, s: string)
    requires s == version + " " + number + " " + reason + "\r\n" + more
    ensures PartsAt(s, version, number)
  {
    var first, rest := version + " ", reason + "\r\n" + more;
    assert s == first + number + (" " + rest);
    assert s == version + (" " + number + " " + rest);
  }

  lemma SpacesFound(s: string, version: string, number: string)
    requires PartsAt(s, version, number) && !Has(version, ' ') && !Has(number, ' ')
    ensures Find(s, version, 0) == Some(0) && Find(s, " ", 0) == Some(|version|)
    ensures Find(s, " ", |version| + 1) == Some(|version| + 1 + |number|)
  {
    var second := |version| + 1 + |number|;
    forall i | 0 <= i < |version| ensures s[i] != ' ' { assert s[i] == version[i]; }
    SpaceAt(s, 0, |version|);
    forall i | |version| < i < second ensures s[i] != ' ' { assert s[i] == number[i - |version| - 1]; }
    SpaceAt(s, |version| + 1, second);
  }

  lemma StatusLineHasNoEnd(d: Dialect, number: string, reason: string)
    requires d.VersionOk() && NoLineEnd(reason) && !Has(number, '\r')
    ensures NoLineEnd(d.version + " " + number + " " + reason)
  {
    var front := d.version + " " + number + " ";
    var line := front + reason;
    assert line == d.version + " " + number + " " + reason;
    forall i | 0 <= i < |line| ensures !LineEnd(line, i) {
      if i + 1 == |line| {} else if i < |d.version| { assert line[i] == d.version[i]; }
      else if i < |front| {
        if |d.version| < i < |front| - 1 { assert line[i] == number[i - |d.version| - 1]; }
      } else { assert !LineEnd(reason, i - |front|); }
    }
  }

  lemma RequestLineHasNoEnd(d: Dialect, name: string, uri: string)
    requires d.VersionOk() && NoLineEnd(uri) && !Has(name, '\r')
    ensures NoLineEnd(RequestLine(d.version, name, uri))
  {
    var line := RequestLine(d.version, name, uri);
    var off := |name| + 1;
    forall i | 0 <= i < |line| ensures !LineEnd(line, i) {
      if i < |name| { assert line[i] == name[i]; }
      else if off <= i < off + |uri| {
        assert line[i] == uri[i - off];
        assert !LineEnd(uri, i - off);
      } else if off + |uri| < i { assert line[i] == d.version[i - off - |uri| - 1]; }
    }
  }

  lemma RequestLineFound(d: Dialect, name: string, uri: string, more: string)
    requires d.VersionOk() && d.MethodOk(name) && NoLineEnd(uri)
    ensures var line := RequestLine(d.version, name, uri);
            var found := FindLine(d.version, line + "\r\n" + more);
            && found.Line? && !found.response && found.sp1 == |name| && found.end == |line|
            && (found.sp2 == |name| + 1 + |uri| <==> !Has(uri, ' '))
            && Slice(line + "\r\n" + more, Range(0, |name|)) == name
  {
    var line := RequestLine(d.version, name, uri);
    var s := line + "\r\n" + more;
    RequestLineHasNoEnd(d, name, uri);
    LineEndAt(line, more);
    RequestParts(d.version, name, uri, more, s);
    hide RequestLine, Find, Has;
    FirstSpace(s, name);
    SecondSpace(s, name, uri);
    FoundBy(s, d.version, 0, |name| + 1 + |uri| + 1);
    VersionNotFirst(d, name, s);
  }

  lemma RequestParts(version: string, name: string, uri: string, more: string, s: string)
    requires s == RequestLine(version, name, uri) + "\r\n" + more
    ensures name + " " + uri + " " <= s && name + " " <= s
    ensures At(s, version, |name| + 1 + |uri| + 1)
  {
    var front := name + " " + uri + " ";
    assert s == front + (version + "\r\n" + more);
    assert s == front + version + ("\r\n" + more);
    assert s == name + " " + (uri + " " + version + "\r\n" + more);
  }

  lemma FirstSpace(s: string, name: string)
    requires name + " " <= s && !Has(name, ' ')
    ensures Find(s, " ", 0) == Some(|name|)
    ensures Slice(s, Range(0, |name|)) == name
  {
    forall i | 0 <= i < |name| ensures s[i] != ' ' { assert s[i] == name[i]; }
    assert s[|name|] == (name + " ")[|name|];
    SpaceAt(s, 0, |name|);
  }

  lemma SpaceIsAt(s: string, i: nat)
    requires i < |s| && s[i] == ' '
    ensures At(s, " ", i)
  {
    assert s[i..i + 1] == [s[i]];
  }

  lemma SecondSpace(s: string, name: string, uri: string)
    requires name + " " + uri + " " <= s
    ensures var sp := Find(s, " ", |name| + 1);
            sp.Some? && sp.value <= |name| + 1 + |uri| && (sp.value == |name| + 1 + |uri| <==> !Has(uri, ' '))
  {
    var off := |name| + 1;
    var front := name + " " + uri + " ";
    assert forall i :: 0 <= i < |front| ==> s[i] == front[i];
    assert s[off + |uri|] == ' ' && forall i :: 0 <= i < |uri| ==> s[off + i] == front[off + i] == uri[i];
    SpaceIsAt(s, off + |uri|);
    if Has(uri, ' ') {
      var k :| 0 <= k < |uri| && uri[k] == ' ';
      SpaceIsAt(s, off + k);
      FoundBy(s, " ", off, off + k);
    } else {
      forall i | off <= i < off + |uri| ensures s[i] != ' ' { assert s[i] == uri[i - off]; }
      SpaceAt(s, off, off + |uri|);
    }
  }

  lemma VersionNotFirst(d: Dialect, name: string, s: string)
    requires d.VersionOk() && d.MethodOk(name) && name + " " <= s
    ensures !At(s, d.version, 0)
  {
    if |d.version| <= |name| {
      assert s[0..|d.version|] == name[..|d.version|];
    } else if |d.version| <= |s| {
      assert s[0..|d.version|][|name|] == ' ';
    }
  }

  /** Reading any text at all: the body lies at its end, and there is a status code only if the
      first line has the version first, two spaces and a code. */
  lemma AnyTextRead(d: Dialect, text: string)
    ensures var p := Read(d, FromText(text)); var line := FindLine(d.version, text);
            && p.text == text && p.parsed && p.body.start <= p.body.end == |text|
            && (line.Bad? ==> p.verb == METHOD_UNKNOWN && p.status == -1)
            && (line.Line? && !line.response ==> p.status == -1)
            && (line.Line? && line.response ==> p.verb == RESPONSE && p.status == StatusOf(text, Range(line.sp1 + 1, line.sp2)))
  {
  }
}
