/** The pure parts of the HTTP parser: characters, lines, and one step of its state machine. */
module HttpSyntax {
  import opened Bytes

  // ---- characters ----

  predicate IsAlnum(ch: byte) {
    '0' <= ch <= '9' || 'A' <= ch <= 'Z' || 'a' <= ch <= 'z'
  }

  /** A token character (section 5.6.2 of RFC 9110). */
  predicate IsTokenCharacter(ch: byte) {
    || IsAlnum(ch) || ch == '!' || ch == '#' || ch == '$' || ch == '%' || ch == '&' || ch == '\''
    || ch == '*' || ch == '+' || ch == '-' || ch == '.' || ch == '^' || ch == '_' || ch == '`'
    || ch == '|' || ch == '~'
  }

  // The delimiters of section 5.6.2 of RFC 9110.
  const DELIMITERS: bytes := ['"', '(', ')', ',', '/', ':', ';', '<', '=', '>', '?', '@', '[', '\\', ']', '{', '}']

  /** Token characters are the visible ASCII characters that are not delimiters. */
  lemma TokensAreVisibleAndUndelimited(ch: byte)
    ensures IsTokenCharacter(ch) <==> '!' <= ch <= '~' && ch !in DELIMITERS
  {
    assert forall c :: c in DELIMITERS <==>
      || c == '"' || c == '(' || c == ')' || c == ',' || c == '/' || (':' <= c <= '@') || ('[' <= c <= ']')
      || c == '{' || c == '}';
  }

  /** A byte the parser lets into a request target: no control, no space, no DEL. */
  predicate IsTargetCharacter(ch: byte) {
    ' ' < ch && ch as int != 0x7f
  }

  /** A byte the parser lets into a header value: no control but tab, no DEL. */
  predicate IsValueCharacter(ch: byte) {
    (' ' <= ch || ch == '\t') && ch as int != 0x7f
  }

  predicate IsBlank(ch: byte) {
    ch == ' ' || ch == '\t'
  }

  predicate AllToken(s: bytes) {
    forall i :: 0 <= i < |s| ==> IsTokenCharacter(s[i])
  }

  predicate AllTarget(s: bytes) {
    forall i :: 0 <= i < |s| ==> IsTargetCharacter(s[i])
  }

  predicate AllValue(s: bytes) {
    forall i :: 0 <= i < |s| ==> IsValueCharacter(s[i])
  }

  predicate AllBlank(s: bytes) {
    forall i :: 0 <= i < |s| ==> IsBlank(s[i])
  }

  function ToLower(ch: byte): byte {
    if 'A' <= ch <= 'Z' then ((ch as int) + 32) as char else ch
  }

  function ToLowerAscii(s: bytes): (r: bytes) {
    seq(|s|, i requires 0 <= i < |s| => ToLower(s[i]))
  }

  // ---- trimming ----

  function TrimLeft(s: bytes): bytes {
    if s != [] && IsBlank(s[0]) then TrimLeft(s[1..]) else s
  }

  function TrimRight(s: bytes): bytes {
    if s != [] && IsBlank(s[|s| - 1]) then TrimRight(s[..|s| - 1]) else s
  }

  function Trim(s: bytes): bytes {
    TrimRight(TrimLeft(s))
  }

  predicate Trimmed(s: bytes) {
    s != [] ==> !IsBlank(s[0]) && !IsBlank(s[|s| - 1])
  }

  // ---- decimal numbers ----

  const SIZE_LIMIT: nat := 0x1_0000_0000_0000_0000

  predicate IsDigit(ch: byte) {
    '0' <= ch <= '9'
  }

  predicate AllDigits(s: bytes) {
    forall i :: 0 <= i < |s| ==> IsDigit(s[i])
  }

  function DigitsValue(s: bytes): nat
    requires AllDigits(s)
  {
    if s == [] then 0 else DigitsValue(s[..|s| - 1]) * 10 + (s[|s| - 1] as int - '0' as int)
  }

  /** The length a Content-Length value stands for, if `size_t` can hold it (section 8.6 of RFC 9110). */
  function ContentLength(value: bytes): Option<nat> {
    if value != [] && AllDigits(value) && DigitsValue(value) < SIZE_LIMIT then Some(DigitsValue(value)) else None
  }

  // ---- lines ----

  datatype RequestLine = BadRequestLine | RequestLine(verb: bytes, path: bytes, version: bytes)

  predicate IsVersion(s: bytes) {
    s == "HTTP/1.0" || s == "HTTP/1.1"
  }

  /** The three words around exactly two spaces; only the last may be empty. */
  function SplitAtSpaces(line: bytes): Option<(bytes, bytes, bytes)> {
    var first := Find(line, ' ');
    if first == 0 || first == |line| then None
    else
      var tail := line[first + 1..];
      var second := Find(tail, ' ');
      if second == 0 || second == |tail| then None
      else
        var version := tail[second + 1..];
        if Find(version, ' ') != |version| then None else Some((line[..first], tail[..second], version))
  }

  function ParseRequestLine(line: bytes): RequestLine {
    match SplitAtSpaces(line)
    case None => BadRequestLine
    case Some((verb, path, version)) =>
      if AllToken(verb) && AllTarget(path) && IsVersion(version) then RequestLine(verb, path, version)
      else BadRequestLine
  }

  datatype HeaderLine = BadHeaderLine | HeaderLine(field: bytes, value: bytes)

  function ParseHeaderLine(line: bytes): HeaderLine {
    var colon := Find(line, ':');
    if colon == 0 || colon == |line| || !AllToken(line[..colon]) then BadHeaderLine
    else
      var value := Trim(line[colon + 1..]);
      if !AllValue(value) then BadHeaderLine
      else HeaderLine(ToLowerAscii(line[..colon]), value)
  }

  // ---- the state machine ----

  datatype State = ExpectRequestLine | ExpectHeaders | ExpectBody | GotAll | Error

  datatype Parser = Parser(
    state: State,
    verb: bytes,
    path: bytes,
    version: bytes,
    headers: map<bytes, bytes>,
    body: bytes,
    expected: nat)

  const FRESH: Parser := Parser(ExpectRequestLine, [], [], [], map[], [], 0)

  /** What the blank line after the headers decides (section 6.3 of RFC 9112, without transfer codings). */
  function EndHeaders(p: Parser): Parser {
    if "transfer-encoding" in p.headers then p.(state := Error)
    else if "content-length" !in p.headers then p.(state := GotAll)
    else
      match ContentLength(p.headers["content-length"])
      case None => p.(state := Error)
      case Some(length) => p.(state := ExpectBody, expected := length)
  }

  /**
   * One turn of the loop in `parseRequest`: the next parser and the bytes it leaves, or `None` when the
   * function returns because it needs more input, has a whole request, or has failed.
   */
  function Step(p: Parser, s: bytes): Option<(Parser, bytes)> {
    match p.state
    case ExpectRequestLine =>
      (match FindCRLF(s)
       case None => None
       case Some(k) =>
         match ParseRequestLine(s[..k])
         case BadRequestLine => Some((p.(state := Error), s))
         case RequestLine(verb, path, version) =>
           Some((p.(state := ExpectHeaders, verb := verb, path := path, version := version), s[k + 2..])))
    case ExpectHeaders =>
      (match FindCRLF(s)
       case None => None
       case Some(k) =>
         if k == 0 then Some((EndHeaders(p), s[2..]))
         else
           match ParseHeaderLine(s[..k])
           case BadHeaderLine => Some((p.(state := Error), s))
           case HeaderLine(field, value) =>
             if field in p.headers then Some((p.(state := Error), s))
             else Some((p.(headers := p.headers[field := value]), s[k + 2..])))
    case ExpectBody =>
      if |s| < p.expected then None
      else Some((p.(state := GotAll, body := s[..p.expected]), s[p.expected..]))
    case GotAll => None
    case Error => None
  }

  predicate Stopped(state: State) {
    state == GotAll || state == Error
  }

  /** A step consumes input or ends the loop. */
  lemma StepProgress(p: Parser, s: bytes)
    requires Step(p, s).Some?
    ensures var (p', s') := Step(p, s).value;
            !Stopped(p.state) && (|s'| < |s| || (|s'| == |s| && Stopped(p'.state)))
  {
  }

  /** The whole loop: steps until none is left. */
  function Run(p: Parser, s: bytes): (r: (Parser, bytes))
    ensures Step(r.0, r.1).None?
    ensures |r.1| <= |s|
    ensures p.state == ExpectRequestLine && r.0.state == GotAll ==> |r.1| < |s|
    decreases |s|, !Stopped(p.state)
  {
    match Step(p, s)
    case None => (p, s)
    case Some((p', s')) => Run(p', s')
  }

  /** Taking the next step first changes nothing. */
  lemma RunStep(p: Parser, s: bytes)
    requires Step(p, s).Some?
    ensures Run(p, s) == Run(Step(p, s).value.0, Step(p, s).value.1)
  {
  }

  lemma RunStopped(p: Parser, s: bytes)
    ensures Stopped(p.state) ==> Run(p, s) == (p, s)
    ensures Run(FRESH, []) == (FRESH, [])
  {
  }

  function GetHeader(p: Parser, field: bytes): bytes {
    if ToLowerAscii(field) in p.headers then p.headers[ToLowerAscii(field)] else []
  }

  // ---- resumption: more input never changes what has been decided ----

  lemma StepExtends(p: Parser, s: bytes, more: bytes)
    requires Step(p, s).Some?
    ensures var (p', s') := Step(p, s).value; Step(p, s + more) == Some((p', s' + more))
  {
    if p.state.ExpectRequestLine? || p.state.ExpectHeaders? {
      FindCRLFExtends(s, more);
      var k := FindCRLF(s).value;
      assert (s + more)[..k] == s[..k];
      assert (s + more)[k + 2..] == s[k + 2..] + more;
    } else {
      assert (s + more)[..p.expected] == s[..p.expected];
      assert (s + more)[p.expected..] == s[p.expected..] + more;
    }
  }

  /** Stopping for lack of input and resuming with more is the same as having had all of it. */
  lemma {:induction false} RunResumes(p: Parser, s: bytes, more: bytes)
    ensures var (p', s') := Run(p, s); Run(p, s + more) == Run(p', s' + more)
    decreases |s|, !Stopped(p.state)
  {
    match Step(p, s) {
      case None =>
      case Some((p', s')) =>
        StepExtends(p, s, more);
        RunResumes(p', s', more);
    }
  }
}
