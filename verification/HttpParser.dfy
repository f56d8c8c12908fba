/** The parser object: `parseRequest` and its helpers as loops over a `Buffer`, refining `HttpSyntax`. */
module HttpParsing {
  import opened Bytes
  import opened ByteBuffer
  import opened HttpSyntax

  // ---- the loops over one line ----

  method CheckToken(s: bytes) returns (ok: bool)
    ensures ok == AllToken(s)
  {
    for i := 0 to |s|
      invariant forall j :: 0 <= j < i ==> IsTokenCharacter(s[j])
    {
      if !IsTokenCharacter(s[i]) {
        return false;
      }
    }
    return true;
  }

  method CheckTarget(s: bytes) returns (ok: bool)
    ensures ok == AllTarget(s)
  {
    for i := 0 to |s|
      invariant forall j :: 0 <= j < i ==> IsTargetCharacter(s[j])
    {
      if s[i] <= ' ' || s[i] as int == 0x7f {
        return false;
      }
    }
    return true;
  }

  method CheckValue(s: bytes) returns (ok: bool)
    ensures ok == AllValue(s)
  {
    for i := 0 to |s|
      invariant forall j :: 0 <= j < i ==> IsValueCharacter(s[j])
    {
      if (s[i] < ' ' && s[i] != '\t') || s[i] as int == 0x7f {
        return false;
      }
    }
    return true;
  }

  /** The two loops that move `valueBegin` right and `valueEnd` left. */
  method TrimBlanks(s: bytes) returns (value: bytes)
    ensures value == Trim(s)
  {
    var begin := 0;
    while begin < |s| && IsBlank(s[begin])
      invariant begin <= |s|
      invariant TrimLeft(s[begin..]) == TrimLeft(s)
    {
      begin := begin + 1;
      assert s[begin - 1..][1..] == s[begin..];
    }
    var end := |s|;
    assert s[begin..end] == s[begin..];
    while begin < end && IsBlank(s[end - 1])
      invariant begin <= end <= |s|
      invariant TrimRight(s[begin..end]) == Trim(s)
    {
      end := end - 1;
      assert s[begin..end + 1][..end - begin] == s[begin..end];
    }
    value := s[begin..end];
  }

  // ---- Content-Length ----

  /** The value never shrinks as digits are read, so an overflow seen early is an overflow of the whole. */
  lemma {:induction false} DigitsGrow(s: bytes, k: nat)
    requires k <= |s| && AllDigits(s)
    ensures DigitsValue(s[..k]) <= DigitsValue(s)
    decreases |s|
  {
    if k == |s| {
      assert s[..k] == s;
    } else {
      DigitsGrow(s[..|s| - 1], k);
      assert s[..|s| - 1][..k] == s[..k];
    }
  }

  /** `std::from_chars` on a digit string: fails as soon as the value leaves `size_t`. */
  method FromChars(value: bytes) returns (ok: bool, parsed: nat)
    requires AllDigits(value)
    ensures ok == (DigitsValue(value) < SIZE_LIMIT)
    ensures ok ==> parsed == DigitsValue(value)
  {
    parsed := 0;
    for i := 0 to |value|
      invariant parsed == DigitsValue(value[..i]) < SIZE_LIMIT
    {
      parsed := parsed * 10 + (value[i] as int - '0' as int);
      assert value[..i + 1][..i] == value[..i];
      assert parsed == DigitsValue(value[..i + 1]);
      if parsed >= SIZE_LIMIT {
        DigitsGrow(value, i + 1);
        return false, 0;
      }
    }
    assert value[..|value|] == value;
    ok := true;
  }

  method ParseContentLength(value: bytes) returns (ok: bool, length: nat)
    ensures ok == ContentLength(value).Some?
    ensures ok ==> length == ContentLength(value).value
  {
    length := 0;
    if value == [] {
      return false, 0;
    }
    for i := 0 to |value|
      invariant forall j :: 0 <= j < i ==> IsDigit(value[j])
    {
      if !IsDigit(value[i]) {
        return false, 0;
      }
    }
    ok, length := FromChars(value);
  }

  class HttpParser {
    var state: State
    var verb: bytes
    var path: bytes
    var version: bytes
    var headers: map<bytes, bytes>
    var body: bytes
    var expectedBodyLength: nat

    ghost function Value(): Parser
      reads this
    {
      Parser(state, verb, path, version, headers, body, expectedBodyLength)
    }

    constructor ()
      ensures Value() == FRESH
    {
      state, expectedBodyLength := ExpectRequestLine, 0;
      verb, path, version, headers, body := [], [], [], map[], [];
    }

    method Reset()
      modifies this
      ensures Value() == FRESH
    {
      state, expectedBodyLength := ExpectRequestLine, 0;
      verb, path, version, headers, body := [], [], [], map[], [];
    }

    function Header(field: bytes): (value: bytes)
      reads this
      ensures value == GetHeader(Value(), field)
    {
      if ToLowerAscii(field) in headers then headers[ToLowerAscii(field)] else []
    }

    /** Stores the three parts of a good request line; a bad one changes nothing. */
    method ProcessRequestLine(line: bytes) returns (ok: bool)
      modifies this`verb, this`path, this`version
      ensures ok == ParseRequestLine(line).RequestLine?
      ensures ok ==> RequestLine(verb, path, version) == ParseRequestLine(line)
      ensures !ok ==> Value() == old(Value())
    {
      var firstSpace := Find(line, ' ');
      if firstSpace == 0 || firstSpace == |line| {
        return false;
      }
      var tail := line[firstSpace + 1..];
      var secondSpace := Find(tail, ' ');
      if secondSpace == 0 || secondSpace == |tail| {
        return false;
      }
      if Find(tail[secondSpace + 1..], ' ') != |tail[secondSpace + 1..]| {
        return false;
      }
      var tokenOk := CheckToken(line[..firstSpace]);
      if !tokenOk {
        return false;
      }
      var targetOk := CheckTarget(tail[..secondSpace]);
      if !targetOk {
        return false;
      }
      if tail[secondSpace + 1..] != "HTTP/1.0" && tail[secondSpace + 1..] != "HTTP/1.1" {
        return false;
      }
      verb, path, version := line[..firstSpace], tail[..secondSpace], tail[secondSpace + 1..];
      return true;
    }

    /** One header line: the name is checked and lowered, the value trimmed and checked, and both stored. */
    method ProcessHeaderLine(line: bytes) returns (ok: bool)
      modifies this`headers
      ensures ok == (ParseHeaderLine(line).HeaderLine? && ParseHeaderLine(line).field !in old(headers))
      ensures headers == if ok then old(headers)[ParseHeaderLine(line).field := ParseHeaderLine(line).value]
                         else old(headers)
    {
      var colon := Find(line, ':');
      if colon == 0 || colon == |line| {
        return false;
      }
      var tokenOk := CheckToken(line[..colon]);
      if !tokenOk {
        return false;
      }
      var field := ToLowerAscii(line[..colon]);
      var value := TrimBlanks(line[colon + 1..]);
      var valueOk := CheckValue(value);
      if !valueOk || field in headers {
        return false;
      }
      headers := headers[field := value];
      return true;
    }

    /** The blank line: decides how the body is framed, or that it cannot be. */
    method ProcessEndOfHeaders()
      requires state == ExpectHeaders
      modifies this`state, this`expectedBodyLength
      ensures Value() == EndHeaders(old(Value()))
    {
      if "transfer-encoding" in headers {
        state := Error;
        return;
      }
      if "content-length" !in headers {
        state := GotAll;
        return;
      }
      var ok, length := ParseContentLength(headers["content-length"]);
      if !ok {
        state := Error;
        return;
      }
      expectedBodyLength := length;
      state := ExpectBody;
    }

    /** The loop turn that takes a request line of `length` bytes. */
    method TurnRequestLine(buf: Buffer, length: nat)
      requires buf.Valid() && state == ExpectRequestLine && FindCRLF(buf.Readable()) == Some(length)
      modifies this, buf`readIndex, buf`writeIndex
      ensures buf.Valid() && Some((Value(), buf.Readable())) == Step(old(Value()), old(buf.Readable()))
    {
      hide ParseRequestLine, FindCRLF;
      var ok := ProcessRequestLine(buf.Readable()[..length]);
      if !ok {
        state := Error;
        return;
      }
      buf.Retrieve(length + 2);
      state := ExpectHeaders;
    }

    /** The loop turn that takes a header line of `length` bytes, or the blank line that ends them. */
    method TurnHeaders(buf: Buffer, length: nat)
      requires buf.Valid() && state == ExpectHeaders && FindCRLF(buf.Readable()) == Some(length)
      modifies this, buf`readIndex, buf`writeIndex
      ensures buf.Valid() && Some((Value(), buf.Readable())) == Step(old(Value()), old(buf.Readable()))
    {
      hide ParseHeaderLine, EndHeaders, FindCRLF;
      if length == 0 {
        buf.Retrieve(2);
        ProcessEndOfHeaders();
        return;
      }
      var ok := ProcessHeaderLine(buf.Readable()[..length]);
      if !ok {
        state := Error;
        return;
      }
      buf.Retrieve(length + 2);
    }

    /** The loop turn that takes the body, once all of it is there. */
    method TurnBody(buf: Buffer)
      requires buf.Valid() && state == ExpectBody && expectedBodyLength <= buf.ReadableBytes()
      modifies this, buf`readIndex, buf`writeIndex
      ensures buf.Valid() && Some((Value(), buf.Readable())) == Step(old(Value()), old(buf.Readable()))
    {
      body := buf.Readable()[..expectedBodyLength];
      buf.Retrieve(expectedBodyLength);
      state := GotAll;
    }

    /** One turn of the loop in `ParseRequest`: `more` tells whether it goes on. */
    method Turn(buf: Buffer) returns (more: bool)
      requires buf.Valid()
      requires !Stopped(state)
      modifies this, buf`readIndex, buf`writeIndex
      ensures buf.Valid()
      ensures more == Step(old(Value()), old(buf.Readable())).Some?
      ensures (Value(), buf.Readable()) ==
              if more then Step(old(Value()), old(buf.Readable())).value else (old(Value()), old(buf.Readable()))
    {
      if state == ExpectBody {
        if buf.ReadableBytes() < expectedBodyLength {
          return false;
        }
        TurnBody(buf);
        return true;
      }
      var crlf := FindCRLF(buf.Readable());
      if crlf.None? {
        return false;
      }
      hide Step;
      if state == ExpectRequestLine {
        TurnRequestLine(buf, crlf.value);
      } else {
        TurnHeaders(buf, crlf.value);
      }
      return true;
    }

    /**
     * Parses as far as the buffer allows. The parser and the buffer end exactly where `Run` says, and the
     * result is false exactly when the parser is in `Error` or there is no buffer.
     */
    method ParseRequest(buf: Buffer?) returns (ok: bool)
      requires buf != null ==> buf.Valid()
      modifies this, buf
      ensures buf == null ==> !ok && Value() == old(Value())
      ensures buf != null ==> buf.Valid() && buf.data == old(buf.data)
      ensures buf != null ==> (Value(), buf.Readable()) == Run(old(Value()), old(buf.Readable()))
      ensures buf != null ==> ok == (state != Error)
    {
      hide Step;
      if buf != null {
        RunStopped(Value(), buf.Readable());
      }
      if buf == null || state == Error {
        return false;
      }
      var more := true;
      while more && !Stopped(state)
        invariant buf.Valid() && buf.data == old(buf.data)
        invariant Run(Value(), buf.Readable()) == Run(old(Value()), old(buf.Readable()))
        invariant !more ==> Step(Value(), buf.Readable()).None?
        decreases |buf.Readable()|, !Stopped(state), more
      {
        ghost var p, s := Value(), buf.Readable();
        more := Turn(buf);
        if more {
          StepProgress(p, s);
        }
      }
      RunStopped(Value(), buf.Readable());
      return state != Error;
    }
  }
}
