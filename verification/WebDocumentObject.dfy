// The document object: a string edited in place, and the table of ranges beside it, each
// method proved to do what the functions of WebDocument say.

module WebDocumentObject {
  import opened WebDocument

  /** getheadervalue */
  method GetHeaderValue(text: string, at: nat) returns (value: Range)
    requires at <= |text|
    ensures value == ValueAfter(text, at)
  {
    var start := at;
    while start < |text| && Separator(text[start])
      invariant at <= start <= |text|
      invariant SkipSeparators(text, at) == SkipSeparators(text, start)
    {
      start := start + 1;
    }
    var it := start;
    while it < |text|
      invariant start <= it <= |text|
      invariant ValueEnd(text, start) == ValueEnd(text, it)
    {
      if text[it] == '\r' {
        if it + 1 == |text| { break; }
        if text[it + 1] == '\n' {
          if it + 2 == |text| { break; }
          if !Blank(text[it + 2]) { break; }
          it := it + 1;
        }
        it := it + 1;
      }
      it := it + 1;
    }
    value := Range(start, it);
  }

  lemma OneMore(s: string, from: nat, at: nat)
    requires from <= at < |s|
    ensures LowerAll(s[from..at + 1]) == LowerAll(s[from..at]) + [Lower(s[at])]
  {
  }

  /** What the header loop does at the end of a name, and at the end of the text. */
  lemma AtSeparator(d: Dialect, s: string, from: nat, at: nat, name: string, so: Parsed)
    requires |so.table| == SLOTS && from <= at < |s| && NameEnd(s, from) == at && name == LowerAll(s[from..at])
    ensures var value := ValueAfter(s, at);
            var table := StoreKnown(so.table, d.headerOf(name), value);
            Headers(d, s, from, so) == if LastValue(s, value.end) then Parsed(table, value.end, so.count)
                                       else Headers(d, s, value.end + 2, Parsed(table, value.end, so.count + 1))
  {
  }

  lemma AtTheEnd(d: Dialect, s: string, from: nat, at: nat, so: Parsed)
    requires |so.table| == SLOTS && at >= |s| && NameEnd(s, from) == NameEnd(s, at)
    ensures Headers(d, s, from, so) == so
  {
  }

  class Document {
    const dialect: Dialect
    const headers: array<Range>
    var text: string
    var body: Range
    var headersparsed: bool
    var headercount: nat
    var verb: int
    var statuscode: int
    var methodstr: Range
    var statuscodestr: Range
    var reasonphrase: Range
    var uri: Range
    var rsline: Range

    ghost predicate Valid()
      reads this
    {
      headers.Length == SLOTS
    }

    ghost function Abstract(): (s: Doc)
      requires Valid()
      reads this, headers
      ensures |s.table| == SLOTS
    {
      Doc(text, headers[..], body, headersparsed, headercount, verb, statuscode, methodstr, statuscodestr,
          reasonphrase, uri, rsline)
    }

    constructor (dialect: Dialect)
      ensures Valid() && fresh(headers) && this.dialect == dialect && Abstract() == EmptyDoc()
    {
      this.dialect, text := dialect, "";
      headers := new Range[SLOTS](_ => EMPTY);
      body, headersparsed, headercount, verb, statuscode := EMPTY, false, 0, METHOD_UNKNOWN, -1;
      methodstr, statuscodestr, reasonphrase, uri, rsline := EMPTY, EMPTY, EMPTY, EMPTY, EMPTY;
      new;
      assert headers[..] == EmptyTable();
    }

    constructor On(dialect: Dialect, text: string)
      ensures Valid() && fresh(headers) && this.dialect == dialect && Abstract() == FromText(text)
    {
      this.dialect, this.text := dialect, text;
      headers := new Range[SLOTS](_ => EMPTY);
      body, headersparsed, headercount, verb, statuscode := Range(0, |text|), false, 0, METHOD_UNKNOWN, -1;
      methodstr, statuscodestr, reasonphrase := Range(0, |text|), Range(0, |text|), Range(0, |text|);
      uri, rsline := Range(0, |text|), Range(0, |text|);
      new;
      assert headers[..] == EmptyTable();
    }

    // ---- parsing

    method StoreHeader(h: HeaderId, value: Range)
      requires Valid()
      modifies headers
      ensures headers[..] == Store(old(headers[..]), h, value)
    {
      for i := 0 to MAX_DUPLICATE_HEADERS
        invariant headers[..] == old(headers[..])
        invariant i > 0 ==> headers[h].end != 0
        invariant i > 1 ==> headers[h + MAX_HEADERS].end != 0
        invariant i > 2 ==> headers[h + 2 * MAX_HEADERS].end != 0
      {
        if headers[h + MAX_HEADERS * i].end == 0 {
          headers[h + MAX_HEADERS * i] := value;
          break;
        }
      }
    }

    /** Where the parts of the first line are, if it is a proper one. */
    method FindRsLine() returns (line: Line)
      ensures line == FindLine(dialect.version, text)
    {
      var verpos := Find(text, dialect.version, 0);
      if verpos.None? { return Bad; }
      var sp1 := Find(text, " ", 0);
      if sp1.None? { return Bad; }
      var sp2 := Find(text, " ", sp1.value + 1);
      if sp2.None? { return Bad; }
      var endline := Find(text, "\r\n", 0);
      if endline.None? || sp2.value > endline.value { return Bad; }
      return Line(verpos.value == 0, sp1.value, sp2.value, endline.value);
    }

    method ParseRsLine()
      requires Valid()
      modifies this
      ensures Abstract() == ParseLine(dialect, old(Abstract()))
    {
      hide FindLine, CastInt, Slice;
      var line := FindRsLine();
      if line.Bad? { return; }
      rsline := Range(0, line.end);
      if line.response {
        verb := RESPONSE;
        statuscodestr := Range(line.sp1 + 1, line.sp2);
        reasonphrase := Range(line.sp2, line.end);
        var code := CastInt(Slice(text, statuscodestr));
        statuscode := if code.Some? then code.value else -1;
      } else {
        methodstr := Range(0, line.sp1);
        verb := dialect.methodOf(LowerAll(Slice(text, methodstr)));
        uri := Range(line.sp1 + 1, line.sp2);
      }
    }

    method ParseAllHeaders()
      requires Valid()
      modifies this, headers
      ensures Abstract() == ParseHeaders(dialect, old(Abstract()))
    {
      hide Headers;
      headersparsed := true;
      var last;
      last, headercount := ScanHeaders(rsline.end + 2);
      body := Range(Min(last + 4, |text|), |text|);
    }

    /** The header loop. The name is lower-cased a character at a time, for the checksum. */
    method ScanHeaders(start: nat) returns (last: nat, count: nat)
      requires Valid()
      modifies headers
      ensures Parsed(headers[..], last, count) == Headers(dialect, text, start, Parsed(old(headers[..]), 0, 0))
    {
      hide ValueAfter, Store, LastValue, LowerAll, Headers;
      last, count := 0, 0;
      var namestart: nat, it: nat, name := start, start, "";
      while it < |text|
        invariant namestart <= it && (it <= |text| || it == namestart)
        invariant NameEnd(text, namestart) == NameEnd(text, it)
        invariant it <= |text| ==> name == LowerAll(text[namestart..it])
        invariant Headers(dialect, text, start, Parsed(old(headers[..]), 0, 0))
               == Headers(dialect, text, namestart, Parsed(headers[..], last, count))
        decreases |text| - it
      {
        if Separator(text[it]) {
          AtSeparator(dialect, text, namestart, it, name, Parsed(headers[..], last, count));
          var headerindex := dialect.headerOf(name);
          var hval := GetHeaderValue(text, it);
          if headerindex >= 0 {
            StoreHeader(headerindex, hval);
          }
          last := hval.end;
          if LastValue(text, hval.end) { break; }
          namestart, it, name := hval.end + 2, hval.end + 2, "";
          count := count + 1;
        } else {
          OneMore(text, namestart, it);
          name := name + [Lower(text[it])];
          it := it + 1;
        }
      }
      if it >= |text| { AtTheEnd(dialect, text, namestart, it, Parsed(headers[..], last, count)); }
    }

    /** What every get function does first. */
    method Prepare()
      requires Valid()
      modifies this, headers
      ensures Abstract() == Read(dialect, old(Abstract()))
    {
      if verb == METHOD_UNKNOWN {
        ParseRsLine();
      }
      if !headersparsed {
        ParseAllHeaders();
      }
    }

    // ---- building

    method SetStatus(code: int, reason: string)
      requires Valid()
      modifies this
      ensures Abstract() == SetStatusLine(dialect, old(Abstract()), code, reason)
    {
      hide ToString, Drop;
      statuscode := code;
      var newline := dialect.version + " ";
      if code < 100 { newline := newline + "0"; }
      if code < 10 { newline := newline + "0"; }
      var first := |newline|;
      newline := newline + ToString(code);
      statuscodestr := Range(first, |newline|);
      newline := newline + " ";
      var third := |newline|;
      newline := newline + reason;
      reasonphrase := Range(third, |newline|);
      newline := newline + "\r\n";
      assert newline == StatusLine(dialect.version, code, reason) + "\r\n";
      text := newline + Drop(text, rsline.end);
      rsline := Range(0, |newline| - 1);
    }

    method SetRequest(m: int, address: string)
      requires Valid()
      modifies this
      ensures Abstract() == SetRequestLine(dialect, old(Abstract()), m, address)
    {
      verb := m;
      var newline := dialect.MethodName(m);
      methodstr := methodstr.(end := |newline|);
      newline := newline + " ";
      var first := |newline|;
      newline := newline + address;
      uri := Range(first, |newline|);
      newline := newline + " " + dialect.version;
      assert newline == RequestLine(dialect.version, dialect.MethodName(m), address);
      rsline := rsline.(end := |newline|);
      text := newline + "\r\n" + Drop(text, |newline|);
    }

    method AddHeaderField(h: HeaderId, value: string)
      requires Valid() && Editable(Abstract())
      modifies this, headers
      ensures Abstract() == AddHeader(dialect, old(Abstract()), h, value)
    {
      if body.start == body.end { AppendField(h, value); } else { InsertField(h, value); }
    }

    method AppendField(h: HeaderId, value: string)
      requires Valid() && Editable(Abstract()) && body.start == body.end
      modifies this, headers
      ensures Abstract() == AddAtEnd(dialect, old(Abstract()), h, value)
    {
      if headercount > 0 {
        text := text[..|text| - 2];
      }
      var start := |text| + |dialect.NameOf(h)| + 2;
      text := text + Field(dialect.NameOf(h), value);
      StoreHeader(h, Range(start, start + |value|));
      text := text + "\r\n";
      headercount := headercount + 1;
    }

    method InsertField(h: HeaderId, value: string)
      requires Valid() && Editable(Abstract()) && body.start < body.end
      modifies this, headers
      ensures Abstract() == AddBeforeBody(dialect, old(Abstract()), h, value)
    {
      var field := Field(dialect.NameOf(h), value);
      if headercount == 0 {
        text := text[..body.start] + (field + "\r\n") + text[body.start..];
      } else {
        text := text[..body.start - 2] + field + text[body.start - 2..];
      }
      StoreHeader(h, Range(body.start, body.start + |field| - 4));
      body := Range(body.start + |field|, body.end + |field|);
      headercount := headercount + 1;
    }

    method SetBodyText(content: string)
      requires Valid() && Editable(Abstract())
      modifies this
      ensures Abstract() == SetBody(old(Abstract()), content)
    {
      if body.end != 0 {
        text := text[..body.start] + text[body.end..];
      }
      var start := |text|;
      text := text + content;
      body := Range(start, |text|);
    }

    // ---- receiving

    method AppendChunk(chunk: string)
      requires Valid()
      modifies this
      ensures Abstract() == Append(old(Abstract()), chunk)
    {
      text := text + BeforeNul(chunk);
      if headersparsed {
        body := Range(body.start, body.end + |chunk|);
      }
    }

    method IsComplete() returns (complete: bool)
      requires Valid()
      modifies this, headers
      ensures complete == Complete(dialect, old(Abstract()))
      ensures Abstract() == Checked(dialect, old(Abstract()))
    {
      if Find(text, "\r\n\r\n", 0).None? { return false; }
      Prepare();
      var cl := headers[dialect.contentLength];
      if cl.end == 0 { return true; }
      var doclength := CastSize(Slice(text, cl));
      if doclength.None? { return false; }
      return body.end - body.start >= doclength.value;
    }
  }
}
