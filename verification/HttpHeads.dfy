/** Exactly which heads the parser refuses, and that it does so as soon as the offending line is complete. */
module HttpHeads {
  import opened Bytes
  import opened HttpSyntax
  import opened HttpGrammar

  // ---- heads as lines ----

  /** A line: no line break inside it. */
  predicate IsLine(s: bytes) {
    FindCRLF(s).None?
  }

  function PrintLines(lines: seq<bytes>): bytes {
    if lines == [] then [] else lines[0] + CRLF + PrintLines(lines[1..])
  }

  ghost predicate IsRequestLine(line: bytes) {
    exists r :: RequestLineOk(r) && line == PrintRequestLine(r)
  }

  /** The lines are the printed `fields`, which are well-formed and have distinct names. */
  ghost predicate LinesOf(lines: seq<bytes>, fields: seq<Field>) {
    && |lines| == |fields|
    && (forall i :: 0 <= i < |fields| ==> FieldOk(fields[i]) && lines[i] == PrintField(fields[i]))
    && DistinctNames(fields)
  }

  /** The body can be framed: no Transfer-Encoding, and any Content-Length is a length; in any spelling. */
  ghost predicate Framable(fields: seq<Field>) {
    forall i :: 0 <= i < |fields| ==>
      && !SameName(fields[i].name, "transfer-encoding")
      && (SameName(fields[i].name, "content-length") ==> ContentLength(fields[i].value).Some?)
  }

  /** Every line is found whole. */
  lemma LineIsFound(line: bytes, rest: bytes)
    requires IsLine(line)
    ensures FindCRLF(line + CRLF + rest) == Some(|line|)
    ensures (line + CRLF + rest)[..|line|] == line && (line + CRLF + rest)[|line| + 2..] == rest
  {
    var s := line + CRLF + rest;
    assert CrlfAt(s, |line|);
    forall i | 0 <= i < |line|
      ensures !CrlfAt(s, i)
    {
      assert s[i] == line[i] && (i + 1 < |line| ==> s[i + 1] == line[i + 1] && !CrlfAt(line, i));
    }
  }

  lemma RequestLinesExactly(line: bytes)
    ensures ParseRequestLine(line).RequestLine? <==> IsRequestLine(line)
  {
    if ParseRequestLine(line).RequestLine? {
      RequestLineUnparses(line);
    }
    if r :| RequestLineOk(r) && line == PrintRequestLine(r) {
      RequestLineParses(r);
    }
  }

  // ---- the header loop, line by line ----

  /** The header map after `lines`, or `None` when one of them is bad or repeats a name. */
  function TakeLines(m: map<bytes, bytes>, lines: seq<bytes>): Option<map<bytes, bytes>>
    decreases lines
  {
    if lines == [] then Some(m)
    else
      match ParseHeaderLine(lines[0])
      case BadHeaderLine => None
      case HeaderLine(field, value) => if field in m then None else TakeLines(m[field := value], lines[1..])
  }

  /** The parser in the state that a bad line leaves. */
  lemma {:induction false} RunLines(p: Parser, lines: seq<bytes>, rest: bytes)
    requires p.state == ExpectHeaders
    requires forall i :: 0 <= i < |lines| ==> IsLine(lines[i]) && lines[i] != []
    ensures match TakeLines(p.headers, lines)
            case Some(m) => Run(p, PrintLines(lines) + rest) == Run(p.(headers := m), rest)
            case None => Run(p, PrintLines(lines) + rest).0.state == Error
    decreases |lines|
  {
    if lines == [] {
      assert PrintLines(lines) + rest == rest;
    } else {
      var tail := PrintLines(lines[1..]) + rest;
      var s := PrintLines(lines) + rest;
      assert s == lines[0] + CRLF + tail;
      LineIsFound(lines[0], tail);
      hide ParseHeaderLine, FindCRLF, PrintLines;
      match ParseHeaderLine(lines[0])
      case BadHeaderLine =>
        FailsHere(p, s);
      case HeaderLine(field, value) =>
        if field in p.headers {
          FailsHere(p, s);
        } else {
          var p' := p.(headers := p.headers[field := value]);
          assert Step(p, s) == Some((p', tail));
          RunLines(p', lines[1..], rest);
        }
    }
  }

  lemma FailsHere(p: Parser, s: bytes)
    requires Step(p, s).Some? && Step(p, s).value.0.state == Error
    ensures Run(p, s).0.state == Error
  {
    RunStep(p, s);
    RunStopped(Step(p, s).value.0, Step(p, s).value.1);
  }

  /** Lines that are taken are printed fields with new names. */
  lemma {:induction false} TakenAreFields(m: map<bytes, bytes>, lines: seq<bytes>) returns (fields: seq<Field>)
    requires TakeLines(m, lines).Some?
    ensures |fields| == |lines|
    ensures forall i :: 0 <= i < |fields| ==> FieldOk(fields[i]) && lines[i] == PrintField(fields[i])
    ensures DistinctLowered(fields) && forall i :: 0 <= i < |fields| ==> Name(fields[i]) !in m
    ensures TakeLines(m, lines) == Some(AddFields(m, fields))
    decreases |lines|
  {
    if lines == [] {
      fields := [];
    } else {
      hide ParseHeaderLine, FieldOk, PrintField, Name;
      var f := FieldUnparses(lines[0]);
      var rest := TakenAreFields(m[Name(f) := f.value], lines[1..]);
      fields := [f] + rest;
      ConsFields(f, rest, m);
    }
  }

  /** Printed fields with new names are taken. */
  lemma {:induction false} FieldsAreTaken(m: map<bytes, bytes>, lines: seq<bytes>, fields: seq<Field>)
    requires |fields| == |lines|
    requires forall i :: 0 <= i < |fields| ==> FieldOk(fields[i]) && lines[i] == PrintField(fields[i])
    requires DistinctLowered(fields) && forall i :: 0 <= i < |fields| ==> Name(fields[i]) !in m
    ensures TakeLines(m, lines) == Some(AddFields(m, fields))
    decreases |lines|
  {
    if lines != [] {
      hide ParseHeaderLine, FieldOk, PrintField, Name;
      var f := fields[0];
      FieldParses(f);
      assert ParseHeaderLine(lines[0]) == HeaderLine(Name(f), f.value);
      assert forall i :: 0 <= i < |fields| - 1 ==> fields[1..][i] == fields[i + 1] && lines[1..][i] == lines[i + 1];
      FieldsAreTaken(m[Name(f) := f.value], lines[1..], fields[1..]);
    }
  }

  lemma LinesExactly(lines: seq<bytes>)
    ensures TakeLines(map[], lines).Some? <==> exists fields :: LinesOf(lines, fields)
  {
    hide FieldOk, PrintField, DistinctNames, DistinctLowered, TakeLines;
    if TakeLines(map[], lines).Some? {
      var fields := TakenAreFields(map[], lines);
      LoweredAlike(fields, []);
      assert LinesOf(lines, fields);
    }
    if fields :| LinesOf(lines, fields) {
      LoweredAlike(fields, []);
      FieldsAreTaken(map[], lines, fields);
    }
  }

  // ---- what is refused, and when ----

  lemma FirstLineDecides(line: bytes, rest: bytes)
    requires IsLine(line)
    ensures if IsRequestLine(line) then
              exists p: Parser :: p.state == ExpectHeaders && p.headers == map[] && p.body == [] && p.expected == 0 &&
                Run(FRESH, line + CRLF + rest) == Run(p, rest)
            else Run(FRESH, line + CRLF + rest).0.state == Error
  {
    LineIsFound(line, rest);
    RequestLinesExactly(line);
    hide ParseRequestLine, FindCRLF, IsRequestLine;
    var s := line + CRLF + rest;
    match ParseRequestLine(line)
    case BadRequestLine => FailsHere(FRESH, s);
    case RequestLine(verb, path, version) =>
      var p := FRESH.(state := ExpectHeaders, verb := verb, path := path, version := version);
      assert Step(FRESH, s) == Some((p, rest));
      assert Run(FRESH, s) == Run(p, rest);
  }

  /**
   * A bad line is refused at once: after any complete lines and the beginning of another, the parser has failed if
   * and only if the first is no request line, or the others are not well-formed header lines with distinct names.
   * Otherwise it waits, holding just the incomplete line.
   */
  lemma BadLineFailsAtOnce(first: bytes, lines: seq<bytes>, partial: bytes)
    requires IsLine(first) && IsLine(partial)
    requires forall i :: 0 <= i < |lines| ==> IsLine(lines[i]) && lines[i] != []
    ensures var r := Run(FRESH, first + CRLF + (PrintLines(lines) + partial));
            && (r.0.state == Error <==> !(IsRequestLine(first) && exists fields :: LinesOf(lines, fields)))
            && (r.0.state != Error ==> r.0.state == ExpectHeaders && r.1 == partial)
  {
    hide LinesOf, IsRequestLine, TakeLines, PrintLines, Run, IsLine;
    FirstLineDecides(first, PrintLines(lines) + partial);
    LinesExactly(lines);
    if IsRequestLine(first) {
      var p: Parser :| p.state == ExpectHeaders && p.headers == map[] && p.body == [] && p.expected == 0 &&
        Run(FRESH, first + CRLF + (PrintLines(lines) + partial)) == Run(p, PrintLines(lines) + partial);
      RunLines(p, lines, partial);
      if TakeLines(map[], lines).Some? {
        WaitsForLine(p.(headers := TakeLines(map[], lines).value), partial);
      }
    }
  }

  /** Nothing is decided before the first line is complete. */
  lemma WaitsForLine(p: Parser, partial: bytes)
    requires (p.state == ExpectHeaders || p.state == ExpectRequestLine) && IsLine(partial)
    ensures Run(p, partial) == (p, partial)
  {
  }

  /**
   * The whole head decides: after it, the parser has failed if and only if the first line is no request line, the
   * others are not well-formed header lines with distinct names, or the body cannot be framed. Otherwise it has the
   * request or waits for its body.
   */
  lemma HeadDecides(first: bytes, lines: seq<bytes>, rest: bytes)
    requires IsLine(first)
    requires forall i :: 0 <= i < |lines| ==> IsLine(lines[i]) && lines[i] != []
    ensures var state := Run(FRESH, first + CRLF + (PrintLines(lines) + (CRLF + rest))).0.state;
            && (state == Error <==>
                  !(IsRequestLine(first) && exists fields :: LinesOf(lines, fields) && Framable(fields)))
            && (state != Error ==> state == GotAll || state == ExpectBody)
  {
    hide LinesOf, IsRequestLine, TakeLines, PrintLines, Run, IsLine, Framable;
    FirstLineDecides(first, PrintLines(lines) + (CRLF + rest));
    LinesExactly(lines);
    if IsRequestLine(first) {
      var p: Parser :| p.state == ExpectHeaders && p.headers == map[] && p.body == [] && p.expected == 0 &&
        Run(FRESH, first + CRLF + (PrintLines(lines) + (CRLF + rest))) == Run(p, PrintLines(lines) + (CRLF + rest));
      RunLines(p, lines, CRLF + rest);
      if TakeLines(map[], lines).Some? {
        BlankLineDecides(p.(headers := TakeLines(map[], lines).value), rest);
        FramingExactly(lines);
      } else if fields :| LinesOf(lines, fields) && Framable(fields) {
        assert false;
      }
    }
  }

  /** The header map allows a body to be framed. */
  predicate FramingOk(m: map<bytes, bytes>) {
    "transfer-encoding" !in m && ("content-length" in m ==> ContentLength(m["content-length"]).Some?)
  }

  lemma BlankLineDecides(p: Parser, rest: bytes)
    requires p.state == ExpectHeaders && p.body == []
    ensures var state := Run(p, CRLF + rest).0.state;
            && (state == Error <==> !FramingOk(p.headers))
            && (state != Error ==> state == GotAll || state == ExpectBody)
  {
    hide Run, ContentLength;
    BlankLineTakes(p, rest);
  }

  lemma FramingExactly(lines: seq<bytes>)
    requires TakeLines(map[], lines).Some?
    ensures FramingOk(TakeLines(map[], lines).value) <==> exists fields :: LinesOf(lines, fields) && Framable(fields)
  {
    hide FieldOk, PrintField, DistinctNames, DistinctLowered, TakeLines, Framable, FramingOk;
    if FramingOk(TakeLines(map[], lines).value) {
      var fields := TakenAreFields(map[], lines);
      LoweredAlike(fields, []);
      FramableAlike(fields);
      assert LinesOf(lines, fields);
    }
    if fields :| LinesOf(lines, fields) && Framable(fields) {
      LoweredAlike(fields, []);
      FieldsAreTaken(map[], lines, fields);
      FramableAlike(fields);
    }
  }

  lemma FramableAlike(fields: seq<Field>)
    requires DistinctLowered(fields)
    ensures FramingOk(AddFields(map[], fields)) <==> Framable(fields)
  {
    AddFieldsLookup(map[], fields);
    FramingNamesAreLowered();
    hide SameName, ContentLength, ToLowerAscii;
    forall i | 0 <= i < |fields|
      ensures Name(fields[i]) == "content-length" <==> SameName(fields[i].name, "content-length")
      ensures Name(fields[i]) == "transfer-encoding" <==> SameName(fields[i].name, "transfer-encoding")
    {
      NamesLowerAlike(fields[i].name, "content-length");
      NamesLowerAlike(fields[i].name, "transfer-encoding");
    }
  }

  // ---- what the head says about the body ----

  /** The parser after the header lines `fields` of a request, at its blank line. */
  lemma HeadIsRead(r: Request, rest: bytes)
    requires RequestLineOk(r) && (forall i :: 0 <= i < |r.fields| ==> FieldOk(r.fields[i])) && DistinctLowered(r.fields)
    ensures Run(FRESH, PrintRequestLine(r) + CRLF + (PrintFields(r.fields) + (CRLF + rest))) ==
            Run(Accepted(r).(state := ExpectHeaders, body := [], expected := 0), CRLF + rest)
  {
    hide FieldOk, PrintFields, Run, ParseRequestLine, FindCRLF;
    var line := PrintRequestLine(r);
    var tail := PrintFields(r.fields) + (CRLF + rest);
    RequestLineParses(r);
    RequestLineHasNoCR(r);
    FindCRLFAfterLine(line, tail);
    var s := line + CRLF + tail;
    assert s[..|line|] == line && s[|line| + 2..] == tail;
    var p := FRESH.(state := ExpectHeaders, verb := r.verb, path := r.path, version := r.version);
    assert Step(FRESH, s) == Some((p, tail));
    RunStep(FRESH, s);
    FieldsParse(p, r.fields, CRLF + rest);
  }

  /** What the value of Content-Length makes of the bytes behind the head: a body, a wait for more, or a failure. */
  predicate Takes(value: bytes, rest: bytes, p: Parser, left: bytes) {
    match ContentLength(value)
    case None => p.state == Error
    case Some(n) =>
      if |rest| < n then p.state == ExpectBody && left == rest
      else p.state == GotAll && p.body == rest[..n] && left == rest[n..]
  }

  lemma BlankLineEnds(p: Parser, rest: bytes)
    requires p.state == ExpectHeaders
    ensures Run(p, CRLF + rest) == Run(EndHeaders(p), rest)
  {
    LineIsFound([], rest);
    hide FindCRLF, ContentLength, EndHeaders, Run;
    var s := CRLF + rest;
    assert [] + CRLF + rest == s && s[2..] == rest;
    assert Step(p, s) == Some((EndHeaders(p), rest));
    RunStep(p, s);
  }

  lemma BodyEnds(p: Parser, rest: bytes)
    requires p.state == ExpectBody
    ensures Run(p, rest) == if |rest| < p.expected then (p, rest)
                            else (p.(state := GotAll, body := rest[..p.expected]), rest[p.expected..])
  {
    if |rest| >= p.expected {
      var r := (p.(state := GotAll, body := rest[..p.expected]), rest[p.expected..]);
      assert Step(p, rest) == Some(r);
      RunStep(p, rest);
      RunStopped(r.0, r.1);
    }
  }

  /** At the blank line the header map decides how many bytes make the body. */
  lemma BlankLineTakes(p: Parser, rest: bytes)
    requires p.state == ExpectHeaders && p.body == []
    ensures var (q, left) := Run(p, CRLF + rest);
            if "transfer-encoding" in p.headers then q.state == Error
            else if "content-length" in p.headers then Takes(p.headers["content-length"], rest, q, left)
            else q.state == GotAll && q.body == [] && left == rest
  {
    hide Run, ContentLength;
    BlankLineEnds(p, rest);
    if EndHeaders(p).state == ExpectBody {
      BodyEnds(EndHeaders(p), rest);
    } else {
      RunStopped(EndHeaders(p), rest);
    }
  }

  function PrintHead(r: Request): bytes {
    PrintRequestLine(r) + CRLF + (PrintFields(r.fields) + CRLF)
  }

  ghost predicate HeadOk(r: Request) {
    RequestLineOk(r) && (forall i :: 0 <= i < |r.fields| ==> FieldOk(r.fields[i])) && DistinctNames(r.fields)
  }

  /** `p` and `left` are what the fields, in any spelling, make of the bytes behind the head. */
  ghost predicate FramedBy(fields: seq<Field>, rest: bytes, p: Parser, left: bytes) {
    if exists i :: 0 <= i < |fields| && SameName(fields[i].name, "Transfer-Encoding") then p.state == Error
    else
      && (forall i :: 0 <= i < |fields| && SameName(fields[i].name, "Content-Length") ==>
            Takes(fields[i].value, rest, p, left))
      && ((forall i :: 0 <= i < |fields| ==> !SameName(fields[i].name, "Content-Length")) ==>
            p.state == GotAll && p.body == [] && left == rest)
  }

  /**
   * Any spelling of Transfer-Encoding makes a request fail, and any spelling of Content-Length gives its body just that
   * many bytes: all of them there, or the parser waits. Without either the request is whole at the blank line.
   */
  lemma SpellingsFrameTheBody(r: Request, rest: bytes)
    requires HeadOk(r)
    ensures var (p, left) := Run(FRESH, PrintHead(r) + rest);
            FramedBy(r.fields, rest, p, left)
  {
    hide SameName, DistinctNames, DistinctLowered, FieldOk, RequestLineOk, AddFields, Run, PrintFields, FramedBy,
         PrintRequestLine;
    LoweredAlike(r.fields, []);
    HeadIsRead(r, rest);
    var p := Accepted(r).(state := ExpectHeaders, body := [], expected := 0);
    assert PrintHead(r) + rest == PrintRequestLine(r) + CRLF + (PrintFields(r.fields) + (CRLF + rest));
    BlankLineTakes(p, rest);
    var (q, left) := Run(p, CRLF + rest);
    MapFrames(r.fields, rest, q, left);
  }

  /** What the header map says of the body is what its fields say, in any spelling. */
  lemma MapFrames(fields: seq<Field>, rest: bytes, p: Parser, left: bytes)
    requires DistinctLowered(fields)
    requires var m := AddFields(map[], fields);
             if "transfer-encoding" in m then p.state == Error
             else if "content-length" in m then Takes(m["content-length"], rest, p, left)
             else p.state == GotAll && p.body == [] && left == rest
    ensures FramedBy(fields, rest, p, left)
  {
    hide SameName, ToLowerAscii, DistinctLowered, Takes, AddFields, Name;
    AddFieldsLookup(map[], fields);
    forall i | 0 <= i < |fields|
      ensures SameName(fields[i].name, "Content-Length") <==> Name(fields[i]) == "content-length"
      ensures SameName(fields[i].name, "Transfer-Encoding") <==> Name(fields[i]) == "transfer-encoding"
    {
      SpelledAlike(fields[i]);
    }
  }

  lemma SpelledAlike(f: Field)
    ensures SameName(f.name, "Content-Length") <==> Name(f) == "content-length"
    ensures SameName(f.name, "Transfer-Encoding") <==> Name(f) == "transfer-encoding"
  {
    hide SameName, ToLowerAscii;
    SpellingsAreLowered();
    NamesLowerAlike(f.name, "Content-Length");
    NamesLowerAlike(f.name, "Transfer-Encoding");
  }

  lemma SpellingsAreLowered()
    ensures ToLowerAscii("Content-Length") == "content-length"
    ensures ToLowerAscii("Transfer-Encoding") == "transfer-encoding"
  {
  }

  // ---- lengths are decimal ----

  /** `std::to_string`. */
  function PrintDecimal(n: nat): bytes {
    var digit: byte := ('0' as int + n % 10) as char;
    if n < 10 then [digit] else PrintDecimal(n / 10) + [digit]
  }

  /** A printed length is read back, behind any zeros; what `size_t` cannot hold is refused. */
  lemma {:induction false} LengthsRoundTrip(n: nat)
    ensures AllDigits(PrintDecimal(n)) && DigitsValue(PrintDecimal(n)) == n
    ensures ContentLength(PrintDecimal(n)) == if n < 0x1_0000_0000_0000_0000 then Some(n) else None
  {
    var s := PrintDecimal(n);
    if n >= 10 {
      LengthsRoundTrip(n / 10);
      assert s[..|s| - 1] == PrintDecimal(n / 10);
      assert s[|s| - 1] as int == '0' as int + n % 10;
    } else {
      assert s[..0] == [];
    }
  }

  lemma {:induction false} LeadingZeros(zeros: bytes, s: bytes)
    requires AllDigits(s) && forall i :: 0 <= i < |zeros| ==> zeros[i] == '0'
    ensures AllDigits(zeros + s) && DigitsValue(zeros + s) == DigitsValue(s)
    decreases |zeros| + |s|
  {
    var t := zeros + s;
    if s != [] {
      LeadingZeros(zeros, s[..|s| - 1]);
      assert t[..|t| - 1] == zeros + s[..|s| - 1];
    } else if zeros != [] {
      LeadingZeros(zeros[..|zeros| - 1], []);
      assert t[..|t| - 1] == zeros[..|zeros| - 1] + [];
    }
  }

  lemma NextDigit(v: nat, last: byte)
    requires IsDigit(last)
    ensures var d := last as int - '0' as int;
            PrintDecimal(v * 10 + d) == if v == 0 then [last] else PrintDecimal(v) + [last]
  {
    var d := last as int - '0' as int;
    assert (v * 10 + d) / 10 == v && (v * 10 + d) % 10 == d;
  }

  /** Digits are the printed form of their value, behind zeros. */
  lemma {:induction false} DigitsArePrinted(s: bytes) returns (zeros: bytes)
    requires s != [] && AllDigits(s)
    ensures forall i :: 0 <= i < |zeros| ==> zeros[i] == '0'
    ensures s == zeros + PrintDecimal(DigitsValue(s))
    decreases |s|
  {
    hide PrintDecimal, IsDigit;
    var init, last := s[..|s| - 1], s[|s| - 1];
    assert s == init + [last];
    NextDigit(DigitsValue(init), last);
    if init == [] {
      zeros := [];
    } else {
      zeros := DigitsArePrinted(init);
      if DigitsValue(init) == 0 {
        PrintedZero();
        zeros := zeros + ['0'];
      }
    }
  }

  lemma PrintedZero()
    ensures PrintDecimal(0) == ['0']
  {
  }

  /** The values read as a length are exactly the printed numbers that `size_t` holds, behind zeros. */
  lemma LengthsExactly(value: bytes, n: nat)
    ensures ContentLength(value) == Some(n) <==> n < 0x1_0000_0000_0000_0000 && IsLength(value, n)
  {
    hide PrintDecimal, DigitsValue;
    if value != [] && AllDigits(value) && n == DigitsValue(value) {
      var zeros := DigitsArePrinted(value);
      assert value == zeros + PrintDecimal(n);
    }
    if IsLength(value, n) {
      var zeros: bytes :| (forall i :: 0 <= i < |zeros| ==> zeros[i] == '0') && value == zeros + PrintDecimal(n);
      LengthsRoundTrip(n);
      LeadingZeros(zeros, PrintDecimal(n));
    }
  }

  ghost predicate IsLength(value: bytes, n: nat) {
    exists zeros: bytes :: (forall i :: 0 <= i < |zeros| ==> zeros[i] == '0') && value == zeros + PrintDecimal(n)
  }

  // ---- characters ----

  /** Control characters of ASCII (appendix B.1 of RFC 5234). */
  predicate IsControl(ch: byte) {
    0 <= ch as int <= 31 || ch as int == 127
  }

  /** Visible characters of ASCII that are no delimiter (section 5.6.2 of RFC 9110). */
  predicate IsTchar(ch: byte) {
    33 <= ch as int <= 126 && ch !in DELIMITERS
  }

  /** The request lines the grammar has, spelled out. */
  lemma RequestLinesSpelledOut(r: Request)
    ensures RequestLineOk(r) <==>
              && r.verb != [] && (forall i :: 0 <= i < |r.verb| ==> IsTchar(r.verb[i]))
              && r.path != [] && (forall i :: 0 <= i < |r.path| ==> !IsControl(r.path[i]) && r.path[i] != ' ')
              && (r.version == "HTTP/1.0" || r.version == "HTTP/1.1")
  {
    TokensSpelledOut(r.verb);
  }

  lemma TokensSpelledOut(s: bytes)
    ensures AllToken(s) <==> forall i :: 0 <= i < |s| ==> IsTchar(s[i])
  {
    hide IsTokenCharacter;
    forall i | 0 <= i < |s|
      ensures IsTokenCharacter(s[i]) <==> IsTchar(s[i])
    {
      TokensAreVisibleAndUndelimited(s[i]);
    }
  }

  /** And the header lines: blanks around a value that neither begins nor ends with one and has no control but tab. */
  lemma FieldsSpelledOut(f: Field)
    ensures FieldOk(f) <==>
              && f.name != [] && (forall i :: 0 <= i < |f.name| ==> IsTchar(f.name[i]))
              && (forall i :: 0 <= i < |f.before| ==> f.before[i] == ' ' || f.before[i] as int == 9)
              && (forall i :: 0 <= i < |f.after| ==> f.after[i] == ' ' || f.after[i] as int == 9)
              && (forall i :: 0 <= i < |f.value| ==>
                    if i == 0 || i == |f.value| - 1 then !IsControl(f.value[i]) && f.value[i] != ' '
                    else !IsControl(f.value[i]) || f.value[i] as int == 9)
  {
    TokensSpelledOut(f.name);
  }
}
