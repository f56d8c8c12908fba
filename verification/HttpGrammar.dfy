/** Requests as text, and the proof that the parser accepts exactly the well-formed ones. */
module HttpGrammar {
  import opened Bytes
  import opened HttpSyntax

  // A header line as sent: blanks are allowed on both sides of the value.
  datatype Field = Field(name: bytes, before: bytes, value: bytes, after: bytes)

  datatype Request = Request(verb: bytes, path: bytes, version: bytes, fields: seq<Field>, body: bytes)

  // ---- printing ----

  function PrintRequestLine(r: Request): bytes {
    r.verb + " " + r.path + " " + r.version
  }

  function PrintField(f: Field): bytes {
    f.name + ":" + (f.before + f.value + f.after)
  }

  function PrintFields(fields: seq<Field>): bytes {
    if fields == [] then [] else PrintField(fields[0]) + CRLF + PrintFields(fields[1..])
  }

  function Print(r: Request): bytes {
    PrintRequestLine(r) + CRLF + (PrintFields(r.fields) + (CRLF + r.body))
  }

  // ---- well-formed requests ----

  predicate FieldOk(f: Field) {
    && f.name != [] && AllToken(f.name)
    && AllBlank(f.before) && AllBlank(f.after)
    && Trimmed(f.value) && AllValue(f.value)
  }

  predicate RequestLineOk(r: Request) {
    r.verb != [] && AllToken(r.verb) && r.path != [] && AllTarget(r.path) && IsVersion(r.version)
  }

  function Name(f: Field): bytes {
    ToLowerAscii(f.name)
  }

  ghost predicate DistinctLowered(fields: seq<Field>) {
    forall i, j :: 0 <= i < j < |fields| ==> Name(fields[i]) != Name(fields[j])
  }

  /** The parser's view: names lowered. */
  ghost predicate FramedLowered(fields: seq<Field>, body: bytes) {
    && (forall i :: 0 <= i < |fields| ==> Name(fields[i]) != "transfer-encoding")
    && (forall i :: 0 <= i < |fields| && Name(fields[i]) == "content-length" ==>
          ContentLength(fields[i].value) == Some(|body|))
    && ((forall i :: 0 <= i < |fields| ==> Name(fields[i]) != "content-length") ==> body == [])
  }

  // ---- names, whatever their spelling ----

  const CAPITAL_LETTERS: bytes := "ABCDEFGHIJKLMNOPQRSTUVWXYZ"
  const SMALL_LETTERS: bytes := "abcdefghijklmnopqrstuvwxyz"

  /** `a` and `b` are the capital and the small form of one letter. */
  predicate CasePair(a: byte, b: byte) {
    exists i :: 0 <= i < 26 && CAPITAL_LETTERS[i] == a && SMALL_LETTERS[i] == b
  }

  predicate SameLetter(a: byte, b: byte) {
    a == b || CasePair(a, b) || CasePair(b, a)
  }

  /** Two spellings of one header name (section 5.1 of RFC 9110: names are case-insensitive). */
  predicate SameName(a: bytes, b: bytes) {
    |a| == |b| && forall i :: 0 <= i < |a| ==> SameLetter(a[i], b[i])
  }

  ghost predicate DistinctNames(fields: seq<Field>) {
    forall i, j :: 0 <= i < j < |fields| ==> !SameName(fields[i].name, fields[j].name)
  }

  /** No Transfer-Encoding; the body is what Content-Length announces, and empty without one; in any spelling. */
  ghost predicate BodyFramed(fields: seq<Field>, body: bytes) {
    && (forall i :: 0 <= i < |fields| ==> !SameName(fields[i].name, "transfer-encoding"))
    && (forall i :: 0 <= i < |fields| && SameName(fields[i].name, "content-length") ==>
          ContentLength(fields[i].value) == Some(|body|))
    && ((forall i :: 0 <= i < |fields| ==> !SameName(fields[i].name, "content-length")) ==> body == [])
  }

  lemma Alphabets(i: nat)
    requires i < 26
    ensures CAPITAL_LETTERS[i] as int == 'A' as int + i && SMALL_LETTERS[i] as int == 'a' as int + i
  {
  }

  lemma CasePairsAreLowered(a: byte, b: byte)
    ensures CasePair(a, b) <==> 'A' <= a <= 'Z' && b == ToLower(a)
  {
    if CasePair(a, b) {
      var i :| 0 <= i < 26 && CAPITAL_LETTERS[i] == a && SMALL_LETTERS[i] == b;
      Alphabets(i);
    }
    if 'A' <= a <= 'Z' && b == ToLower(a) {
      Alphabets(a as int - 'A' as int);
    }
  }

  lemma LettersLowerAlike(a: byte, b: byte)
    ensures ToLower(a) == ToLower(b) <==> SameLetter(a, b)
  {
    CasePairsAreLowered(a, b);
    CasePairsAreLowered(b, a);
    hide CasePair;
  }

  /** Lowering identifies exactly the spellings of one name. */
  lemma NamesLowerAlike(a: bytes, b: bytes)
    ensures ToLowerAscii(a) == ToLowerAscii(b) <==> SameName(a, b)
  {
    hide SameLetter, ToLower;
    forall i | 0 <= i < |a| && i < |b|
      ensures ToLower(a[i]) == ToLower(b[i]) <==> SameLetter(a[i], b[i])
    {
      LettersLowerAlike(a[i], b[i]);
    }
    if SameName(a, b) {
      assert forall i :: 0 <= i < |a| ==> ToLowerAscii(a)[i] == ToLowerAscii(b)[i];
    } else if |a| == |b| {
      var i :| 0 <= i < |a| && !SameLetter(a[i], b[i]);
      assert ToLowerAscii(a)[i] != ToLowerAscii(b)[i];
    } else {
      assert |ToLowerAscii(a)| != |ToLowerAscii(b)|;
    }
  }

  /** The names the parser looks up are their own lowering. */
  lemma FramingNamesAreLowered()
    ensures ToLowerAscii("content-length") == "content-length"
    ensures ToLowerAscii("transfer-encoding") == "transfer-encoding"
  {
  }

  /** What the parser decides on lowered names is what the grammar says of names. */
  lemma LoweredAlike(fields: seq<Field>, body: bytes)
    ensures DistinctLowered(fields) <==> DistinctNames(fields)
    ensures FramedLowered(fields, body) <==> BodyFramed(fields, body)
  {
    FramingNamesAreLowered();
    hide SameName, ContentLength, ToLowerAscii;
    forall i | 0 <= i < |fields|
      ensures Name(fields[i]) == "content-length" <==> SameName(fields[i].name, "content-length")
      ensures Name(fields[i]) == "transfer-encoding" <==> SameName(fields[i].name, "transfer-encoding")
    {
      NamesLowerAlike(fields[i].name, "content-length");
      NamesLowerAlike(fields[i].name, "transfer-encoding");
    }
    forall i, j | 0 <= i < j < |fields|
      ensures Name(fields[i]) == Name(fields[j]) <==> SameName(fields[i].name, fields[j].name)
    {
      NamesLowerAlike(fields[i].name, fields[j].name);
    }
  }

  ghost predicate WellFormed(r: Request) {
    && RequestLineOk(r)
    && (forall i :: 0 <= i < |r.fields| ==> FieldOk(r.fields[i]))
    && DistinctNames(r.fields)
    && BodyFramed(r.fields, r.body)
  }

  // ---- the parser's header map ----

  function AddFields(m: map<bytes, bytes>, fields: seq<Field>): map<bytes, bytes>
    decreases fields
  {
    if fields == [] then m else AddFields(m[Name(fields[0]) := fields[0].value], fields[1..])
  }

  /** Each field can be looked up, and nothing else was added. */
  lemma {:induction false} AddFieldsLookup(m: map<bytes, bytes>, fields: seq<Field>)
    requires DistinctLowered(fields)
    ensures var r := AddFields(m, fields);
            && (forall i :: 0 <= i < |fields| ==> Name(fields[i]) in r && r[Name(fields[i])] == fields[i].value)
            && (forall n :: n in r ==> n in m || exists i :: 0 <= i < |fields| && n == Name(fields[i]))
            && (forall n :: n in m && (forall i :: 0 <= i < |fields| ==> n != Name(fields[i])) ==>
                  n in r && r[n] == m[n])
    decreases fields
  {
    if fields != [] {
      var m' := m[Name(fields[0]) := fields[0].value];
      var rest := fields[1..];
      AddFieldsLookup(m', rest);
      var r := AddFields(m', rest);
      assert forall i :: 0 <= i < |rest| ==> rest[i] == fields[i + 1];
      forall i | 0 <= i < |fields|
        ensures Name(fields[i]) in r && r[Name(fields[i])] == fields[i].value
      {
        if i > 0 {
          assert fields[i] == rest[i - 1];
        }
      }
      forall n | n in r
        ensures n in m || exists i :: 0 <= i < |fields| && n == Name(fields[i])
      {
        if n !in m' {
          var i :| 0 <= i < |rest| && n == Name(rest[i]);
          assert n == Name(fields[i + 1]);
        }
      }
    }
  }

  // ---- lines, both ways ----

  lemma {:induction false} TrimLeftOf(blank: bytes, s: bytes)
    requires AllBlank(blank)
    ensures TrimLeft(blank + s) == TrimLeft(s)
  {
    if blank == [] {
      assert blank + s == s;
    } else {
      assert (blank + s)[1..] == blank[1..] + s;
      TrimLeftOf(blank[1..], s);
    }
  }

  lemma {:induction false} TrimRightOf(s: bytes, blank: bytes)
    requires AllBlank(blank)
    ensures TrimRight(s + blank) == TrimRight(s)
  {
    if blank == [] {
      assert s + blank == s;
    } else {
      assert (s + blank)[..|s + blank| - 1] == s + blank[..|blank| - 1];
      TrimRightOf(s, blank[..|blank| - 1]);
    }
  }

  /** Trimming a value sent between blanks gives the value back. */
  lemma TrimPadded(before: bytes, value: bytes, after: bytes)
    requires AllBlank(before) && AllBlank(after) && Trimmed(value)
    ensures Trim(before + value + after) == value
  {
    assert before + value + after == before + (value + after);
    TrimLeftOf(before, value + after);
    if value == [] {
      assert value + after == after && after == after + [];
      TrimLeftOf(after, []);
    } else {
      assert TrimLeft(value + after) == value + after;
      TrimRightOf(value, after);
    }
  }

  lemma {:induction false} TrimLeftSplit(s: bytes) returns (blank: bytes)
    ensures AllBlank(blank) && s == blank + TrimLeft(s)
    ensures TrimLeft(s) != [] ==> !IsBlank(TrimLeft(s)[0])
  {
    if s != [] && IsBlank(s[0]) {
      var tail := TrimLeftSplit(s[1..]);
      blank := [s[0]] + tail;
      assert s == [s[0]] + s[1..] == [s[0]] + (tail + TrimLeft(s[1..])) == blank + TrimLeft(s[1..]);
    } else {
      blank := [];
    }
  }

  lemma {:induction false} TrimRightSplit(s: bytes) returns (blank: bytes)
    ensures AllBlank(blank) && s == TrimRight(s) + blank
    ensures TrimRight(s) != [] ==> !IsBlank(TrimRight(s)[|TrimRight(s)| - 1])
  {
    if s != [] && IsBlank(s[|s| - 1]) {
      var init := TrimRightSplit(s[..|s| - 1]);
      blank := init + [s[|s| - 1]];
      var left := TrimRight(s[..|s| - 1]);
      assert s == s[..|s| - 1] + [s[|s| - 1]] == (left + init) + [s[|s| - 1]] == left + blank;
    } else {
      blank := [];
    }
  }

  /** Every string is its trimmed part between blanks. */
  lemma TrimSplit(s: bytes) returns (before: bytes, after: bytes)
    ensures AllBlank(before) && AllBlank(after) && Trimmed(Trim(s))
    ensures s == before + Trim(s) + after
  {
    before := TrimLeftSplit(s);
    after := TrimRightSplit(TrimLeft(s));
  }

  lemma FindAfter(s: bytes, c: byte, rest: bytes)
    requires c !in s
    ensures Find(s + [c] + rest, c) == |s|
  {
    var t := s + [c] + rest;
    assert t[|s|] == c;
    assert forall i :: 0 <= i < |s| ==> t[i] == s[i];
  }

  lemma FindNone(s: bytes, c: byte)
    requires c !in s
    ensures Find(s, c) == |s|
  {
  }

  /** The separators of a head are not among the characters they separate. */
  lemma NoSeparators(s: bytes)
    ensures AllToken(s) ==> ' ' !in s && ':' !in s && '\r' !in s
    ensures AllTarget(s) ==> ' ' !in s && '\r' !in s
    ensures AllValue(s) ==> '\r' !in s
    ensures AllBlank(s) ==> '\r' !in s
    ensures IsVersion(s) ==> ' ' !in s && '\r' !in s
  {
  }

  lemma {:induction false} NoCR(s: bytes, t: bytes)
    requires '\r' !in s && '\r' !in t
    ensures '\r' !in s + t
  {
  }

  lemma RequestLineHasNoCR(r: Request)
    requires RequestLineOk(r)
    ensures '\r' !in PrintRequestLine(r)
  {
    NoSeparators(r.verb);
    NoSeparators(r.path);
    NoSeparators(r.version);
    NoCR(r.verb, " ");
    NoCR(r.verb + " ", r.path);
    NoCR(r.verb + " " + r.path, " ");
    NoCR(r.verb + " " + r.path + " ", r.version);
  }

  lemma FindSplits(s: bytes, c: byte, rest: bytes)
    requires c !in s
    ensures var t := s + [c] + rest;
            Find(t, c) == |s| && t[..|s|] == s && t[|s| + 1..] == rest
  {
    FindAfter(s, c, rest);
  }

  lemma SpacesSplit(verb: bytes, path: bytes, version: bytes)
    requires verb != [] && path != [] && ' ' !in verb && ' ' !in path && ' ' !in version
    ensures SplitAtSpaces(verb + " " + path + " " + version) == Some((verb, path, version))
  {
    var tail := path + [' '] + version;
    assert verb + " " + path + " " + version == verb + [' '] + tail;
    FindSplits(verb, ' ', tail);
    FindSplits(path, ' ', version);
    FindNone(version, ' ');
  }

  lemma SpacesJoin(line: bytes)
    requires SplitAtSpaces(line).Some?
    ensures var (verb, path, version) := SplitAtSpaces(line).value;
            verb != [] && path != [] && line == verb + " " + path + " " + version
  {
    var first := Find(line, ' ');
    var tail := line[first + 1..];
    var second := Find(tail, ' ');
    assert line == line[..first] + " " + tail;
    assert tail == tail[..second] + " " + tail[second + 1..];
  }

  /** A printed request line parses to its parts. */
  lemma RequestLineParses(r: Request)
    requires RequestLineOk(r)
    ensures ParseRequestLine(PrintRequestLine(r)) == RequestLine(r.verb, r.path, r.version)
  {
    NoSeparators(r.verb);
    NoSeparators(r.path);
    NoSeparators(r.version);
    SpacesSplit(r.verb, r.path, r.version);
  }

  /** Every line the parser takes for a request line is a printed one. */
  lemma RequestLineUnparses(line: bytes)
    requires ParseRequestLine(line).RequestLine?
    ensures var q := ParseRequestLine(line);
            var r := Request(q.verb, q.path, q.version, [], []);
            RequestLineOk(r) && line == PrintRequestLine(r)
  {
    SpacesJoin(line);
  }

  lemma FieldParses(f: Field)
    requires FieldOk(f)
    ensures ParseHeaderLine(PrintField(f)) == HeaderLine(Name(f), f.value)
    ensures '\r' !in PrintField(f) && PrintField(f) != []
  {
    var line := PrintField(f);
    var tail := f.before + f.value + f.after;
    NoSeparators(f.name);
    NoSeparators(f.before);
    NoSeparators(f.value);
    NoSeparators(f.after);
    assert line == f.name + [':'] + tail;
    FindAfter(f.name, ':', tail);
    assert line[|f.name| + 1..] == tail && line[..|f.name|] == f.name;
    TrimPadded(f.before, f.value, f.after);
  }

  lemma FieldUnparses(line: bytes) returns (f: Field)
    requires ParseHeaderLine(line).HeaderLine?
    ensures FieldOk(f) && line == PrintField(f)
    ensures ParseHeaderLine(line) == HeaderLine(Name(f), f.value)
  {
    var colon := Find(line, ':');
    var tail := line[colon + 1..];
    var before, after := TrimSplit(tail);
    f := Field(line[..colon], before, Trim(tail), after);
    SplitAtColon(line, colon);
    hide Trim, Trimmed, AllBlank, AllToken, AllValue, ToLowerAscii;
  }

  lemma SplitAtColon(line: bytes, k: nat)
    requires k < |line| && line[k] == ':'
    ensures line == line[..k] + ":" + line[k + 1..]
  {
  }

  // ---- print, then parse ----

  /** What the parser holds once it has taken in `r`. */
  function Accepted(r: Request): Parser {
    Parser(GotAll, r.verb, r.path, r.version, AddFields(map[], r.fields), r.body, |r.body|)
  }

  lemma {:induction false} FieldsParse(p: Parser, fields: seq<Field>, rest: bytes)
    requires p.state == ExpectHeaders
    requires forall i :: 0 <= i < |fields| ==> FieldOk(fields[i])
    requires DistinctLowered(fields)
    requires forall i :: 0 <= i < |fields| ==> Name(fields[i]) !in p.headers
    ensures Run(p, PrintFields(fields) + rest) == Run(p.(headers := AddFields(p.headers, fields)), rest)
    decreases fields
  {
    if fields == [] {
      assert PrintFields(fields) + rest == rest;
    } else {
      var f := fields[0];
      var tail := PrintFields(fields[1..]) + rest;
      var s := PrintFields(fields) + rest;
      assert s == PrintField(f) + CRLF + tail;
      FieldParses(f);
      FindCRLFAfterLine(PrintField(f), tail);
      assert s[..|PrintField(f)|] == PrintField(f);
      assert s[|PrintField(f)| + 2..] == tail;
      var p' := p.(headers := p.headers[Name(f) := f.value]);
      assert Step(p, s) == Some((p', tail));
      FieldsParse(p', fields[1..], rest);
    }
  }

  lemma BlankLineParses(p: Parser, r: Request, rest: bytes)
    requires p == Accepted(r).(state := ExpectHeaders, body := [], expected := 0)
    requires DistinctLowered(r.fields) && FramedLowered(r.fields, r.body)
    ensures Run(p, CRLF + r.body + rest) == (Accepted(r), rest)
  {
    var s := CRLF + r.body + rest;
    AddFieldsLookup(map[], r.fields);
    FindCRLFAfterLine([], r.body + rest);
    assert s == [] + CRLF + (r.body + rest);
    assert s[2..] == r.body + rest;
    var p' := EndHeaders(p);
    assert Step(p, s) == Some((p', r.body + rest));
    if "content-length" in p.headers {
      assert ContentLength(p.headers["content-length"]) == Some(|r.body|);
      assert Step(p', r.body + rest) == Some((Accepted(r), rest));
      RunStep(p', r.body + rest);
      assert Run(Accepted(r), rest) == (Accepted(r), rest);
    } else {
      assert r.body + rest == rest;
      assert p' == Accepted(r);
      assert Run(p', rest) == (p', rest);
    }
  }

  /** Round trip: a printed request, whatever follows it, parses to itself and leaves what follows. */
  lemma PrintThenParse(r: Request, rest: bytes)
    requires WellFormed(r)
    ensures Run(FRESH, Print(r) + rest) == (Accepted(r), rest)
  {
    LoweredAlike(r.fields, r.body);
    hide DistinctNames, BodyFramed;
    var line := PrintRequestLine(r);
    var tail := PrintFields(r.fields) + (CRLF + r.body + rest);
    var s := Print(r) + rest;
    assert s == line + CRLF + tail;
    RequestLineParses(r);
    RequestLineHasNoCR(r);
    FindCRLFAfterLine(line, tail);
    assert s[..|line|] == line && s[|line| + 2..] == tail;
    var p := FRESH.(state := ExpectHeaders, verb := r.verb, path := r.path, version := r.version);
    assert Step(FRESH, s) == Some((p, tail));
    FieldsParse(p, r.fields, CRLF + r.body + rest);
    BlankLineParses(p.(headers := AddFields(map[], r.fields)), r, rest);
  }

  /** A stored header is found under any spelling of its name, and no other name finds anything. */
  lemma HeaderLookup(r: Request, field: bytes)
    requires WellFormed(r)
    ensures forall i :: 0 <= i < |r.fields| && SameName(field, r.fields[i].name) ==>
              GetHeader(Accepted(r), field) == r.fields[i].value
    ensures (forall i :: 0 <= i < |r.fields| ==> !SameName(field, r.fields[i].name)) ==>
              GetHeader(Accepted(r), field) == []
  {
    LoweredAlike(r.fields, r.body);
    AddFieldsLookup(map[], r.fields);
    hide SameName, ToLowerAscii, DistinctNames, BodyFramed, FieldOk;
    forall i | 0 <= i < |r.fields|
      ensures SameName(field, r.fields[i].name) <==> ToLowerAscii(field) == Name(r.fields[i])
    {
      NamesLowerAlike(field, r.fields[i].name);
    }
  }

  // ---- parse, then print ----

  lemma ConsFields(f: Field, rest: seq<Field>, known: map<bytes, bytes>)
    requires DistinctLowered(rest)
    requires Name(f) !in known
    requires forall i :: 0 <= i < |rest| ==> Name(rest[i]) !in known[Name(f) := f.value]
    ensures DistinctLowered([f] + rest)
    ensures forall i :: 0 <= i < |[f] + rest| ==> Name(([f] + rest)[i]) !in known
    ensures PrintFields([f] + rest) == PrintField(f) + CRLF + PrintFields(rest)
    ensures AddFields(known, [f] + rest) == AddFields(known[Name(f) := f.value], rest)
  {
    assert ([f] + rest)[1..] == rest;
    forall i, j | 0 <= i < j < |[f] + rest|
      ensures Name(([f] + rest)[i]) != Name(([f] + rest)[j])
    {
      assert ([f] + rest)[j] == rest[j - 1];
      assert i > 0 ==> ([f] + rest)[i] == rest[i - 1];
    }
  }

  lemma SplitAtCRLF(s: bytes)
    requires FindCRLF(s).Some?
    ensures var k := FindCRLF(s).value; s == s[..k] + CRLF + s[k + 2..]
  {
  }

  /** A step over a header line that does not fail reads a well-formed field with a new name. */
  lemma HeaderLineUnparses(p: Parser, s: bytes) returns (f: Field)
    requires p.state == ExpectHeaders && FindCRLF(s).Some? && FindCRLF(s).value != 0
    requires Step(p, s).value.0.state != Error
    ensures FieldOk(f) && Name(f) !in p.headers
    ensures s == PrintField(f) + CRLF + s[FindCRLF(s).value + 2..]
    ensures Step(p, s) == Some((p.(headers := p.headers[Name(f) := f.value]), s[FindCRLF(s).value + 2..]))
  {
    var k := FindCRLF(s).value;
    f := FieldUnparses(s[..k]);
    SplitAtCRLF(s);
  }

  lemma Associates(a: bytes, b: bytes, c: bytes)
    ensures (a + b) + c == a + (b + c)
  {
  }

  /** Header parsing that ends in a whole request starts with a step that does not fail. */
  lemma HeadersGoOn(p: Parser, s: bytes)
    requires p.state == ExpectHeaders && Run(p, s).0.state == GotAll
    ensures FindCRLF(s).Some? && Step(p, s).Some? && Step(p, s).value.0.state != Error
    ensures FindCRLF(s).value == 0 ==> Run(p, s) == Run(EndHeaders(p), s[2..])
    ensures Run(p, s) == Run(Step(p, s).value.0, Step(p, s).value.1)
  {
    hide FindCRLF, ParseHeaderLine;
    if Step(p, s).Some? {
      RunStep(p, s);
      RunStopped(Step(p, s).value.0, Step(p, s).value.1);
    }
  }

  /** Header parsing that ends in a whole request has read fields that could have been printed. */
  lemma {:induction false} HeadersUnparse(p: Parser, s: bytes) returns (fields: seq<Field>, tail: bytes)
    requires p.state == ExpectHeaders && Run(p, s).0.state == GotAll
    ensures forall i :: 0 <= i < |fields| ==> FieldOk(fields[i])
    ensures DistinctLowered(fields)
    ensures forall i :: 0 <= i < |fields| ==> Name(fields[i]) !in p.headers
    ensures s == PrintFields(fields) + (CRLF + tail)
    ensures Run(p, s) == Run(EndHeaders(p.(headers := AddFields(p.headers, fields))), tail)
    decreases |s|
  {
    HeadersGoOn(p, s);
    var k := FindCRLF(s).value;
    if k == 0 {
      fields, tail := [], s[2..];
      SplitAtCRLF(s);
      hide Run, Step, EndHeaders, FindCRLF;
    } else {
      hide Run, Step, EndHeaders, FieldOk, PrintField, PrintFields, DistinctLowered, AddFields, Name, FindCRLF;
      var f := HeaderLineUnparses(p, s);
      var p' := p.(headers := p.headers[Name(f) := f.value]);
      var rest;
      rest, tail := HeadersUnparse(p', s[k + 2..]);
      fields := [f] + rest;
      ConsFields(f, rest, p.headers);
      Associates(PrintField(f) + CRLF, PrintFields(rest), CRLF + tail);
    }
  }

  /** A body is only ever accepted whole, after a head without Transfer-Encoding and with a valid length. */
  lemma BodyUnparses(p: Parser, tail: bytes)
    requires p.state == ExpectHeaders && p.body == [] && p.expected == 0
    requires Run(EndHeaders(p), tail).0.state == GotAll
    ensures var (q, rest) := Run(EndHeaders(p), tail);
            && q == p.(state := GotAll, body := q.body, expected := |q.body|)
            && tail == q.body + rest
            && "transfer-encoding" !in p.headers
            && if "content-length" in p.headers then ContentLength(p.headers["content-length"]) == Some(|q.body|)
               else q.body == []
  {
    var p' := EndHeaders(p);
    if p'.state == ExpectBody {
      assert Run(p', tail) == Step(p', tail).value;
    } else {
      assert tail == [] + tail;
    }
  }

  /** The first line of an accepted request is a printed request line. */
  lemma FirstLineUnparses(s: bytes) returns (line: Request, tail: bytes)
    requires Run(FRESH, s).0.state == GotAll
    ensures RequestLineOk(line) && s == PrintRequestLine(line) + CRLF + tail
    ensures Run(FRESH, s) ==
            Run(FRESH.(state := ExpectHeaders, verb := line.verb, path := line.path, version := line.version), tail)
  {
    RunStep(FRESH, s);
    var k := FindCRLF(s).value;
    var q := ParseRequestLine(s[..k]);
    assert Step(FRESH, s).value.0.state != Error;
    RequestLineUnparses(s[..k]);
    SplitAtCRLF(s);
    line, tail := Request(q.verb, q.path, q.version, [], []), s[k + 2..];
  }

  lemma BodyIsFramed(fields: seq<Field>, body: bytes)
    requires DistinctLowered(fields)
    requires var m := AddFields(map[], fields);
             && "transfer-encoding" !in m
             && if "content-length" in m then ContentLength(m["content-length"]) == Some(|body|) else body == []
    ensures FramedLowered(fields, body)
  {
    AddFieldsLookup(map[], fields);
  }

  /** Whatever the parser accepts is a printed well-formed request. */
  lemma ParseThenPrint(s: bytes) returns (r: Request)
    requires Run(FRESH, s).0.state == GotAll
    ensures WellFormed(r)
    ensures Run(FRESH, s).0 == Accepted(r) && s == Print(r) + Run(FRESH, s).1
  {
    var line, head := FirstLineUnparses(s);
    var p := FRESH.(state := ExpectHeaders, verb := line.verb, path := line.path, version := line.version);
    var fields, tail := HeadersUnparse(p, head);
    BodyUnparses(p.(headers := AddFields(map[], fields)), tail);
    var (q, rest) := Run(FRESH, s);
    BodyIsFramed(fields, q.body);
    LoweredAlike(fields, q.body);
    r := Request(line.verb, line.path, line.version, fields, q.body);
    Assemble(PrintRequestLine(r) + CRLF, PrintFields(fields), q.body, rest);
  }

  lemma Assemble(line: bytes, fields: bytes, body: bytes, rest: bytes)
    ensures line + (fields + (CRLF + (body + rest))) == (line + (fields + (CRLF + body))) + rest
  {
  }

  /**
   * Exact framing: the parser reaches `GotAll` leaving `rest` exactly when the input is a well-formed
   * request followed by `rest`.
   */
  lemma AcceptsExactlyTheGrammar(s: bytes, rest: bytes)
    ensures (Run(FRESH, s).0.state == GotAll && Run(FRESH, s).1 == rest)
       <==> (exists r :: WellFormed(r) && s == Print(r) + rest)
  {
    if Run(FRESH, s).0.state == GotAll && Run(FRESH, s).1 == rest {
      var r := ParseThenPrint(s);
    }
    if r :| WellFormed(r) && s == Print(r) + rest {
      PrintThenParse(r, rest);
    }
  }

  /** One text, one request up to the blanks around header values: acceptance determines the content. */
  lemma PrintIsUnambiguous(r: Request, r': Request, rest: bytes, rest': bytes)
    requires WellFormed(r) && WellFormed(r')
    requires Print(r) + rest == Print(r') + rest'
    ensures Accepted(r) == Accepted(r') && rest == rest'
  {
    PrintThenParse(r, rest);
    PrintThenParse(r', rest');
  }
}
