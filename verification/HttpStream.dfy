/** A connection's byte stream: extracting pipelined requests, however TCP cuts the stream. */
module HttpStream {
  import opened Bytes
  import opened HttpSyntax
  import opened HttpGrammar

  datatype Extracted = Extracted(path: bytes, body: bytes)

  // What one run of the loop in `onMessage` leaves behind.
  datatype Drained = Drained(requests: seq<Extracted>, parser: Parser, rest: bytes)

  /** The loop in `onMessage`: whole requests are taken out, and the parser is reset after each. */
  function Drain(p: Parser, s: bytes): Drained
    decreases |s|, p.state != ExpectRequestLine
  {
    var (p', s') := Run(p, s);
    if p'.state != GotAll then Drained([], p', s')
    else
      var first := Extracted(p'.path, p'.body);
      if s' == [] then Drained([first], FRESH, s')
      else
        var d := Drain(FRESH, s');
        d.(requests := [first] + d.requests)
  }

  // A connection as `onMessage` sees it between callbacks.
  datatype Session = Session(parser: Parser, input: bytes, extracted: seq<Extracted>, malformed: bool)

  const NEW_SESSION: Session := Session(FRESH, [], [], false)

  /** One message callback: the chunk is appended to the input buffer, then the loop runs. */
  function Receive(c: Session, chunk: bytes): Session {
    var d := Drain(c.parser, c.input + chunk);
    Session(d.parser, d.rest, c.extracted + d.requests, c.malformed || d.parser.state == Error)
  }

  function ReceiveAll(c: Session, chunks: seq<bytes>): Session {
    if chunks == [] then c else Receive(ReceiveAll(c, chunks[..|chunks| - 1]), chunks[|chunks| - 1])
  }

  function Concat(chunks: seq<bytes>): bytes {
    if chunks == [] then [] else Concat(chunks[..|chunks| - 1]) + chunks[|chunks| - 1]
  }

  // ---- chunking invariance ----

  lemma {:induction false} DrainResumes(p: Parser, s: bytes, more: bytes)
    ensures var d := Drain(p, s);
            var d' := Drain(d.parser, d.rest + more);
            Drain(p, s + more) == d'.(requests := d.requests + d'.requests)
    decreases |s|, p.state != ExpectRequestLine
  {
    hide Run;
    RunResumes(p, s, more);
    var (p', s') := Run(p, s);
    if p'.state == GotAll {
      RunStopped(p', s' + more);
      if s' == [] {
        assert s' + more == more;
      } else {
        DrainResumes(FRESH, s', more);
        var first := Extracted(p'.path, p'.body);
        var d := Drain(FRESH, s');
        var d' := Drain(d.parser, d.rest + more);
        assert [first] + d.requests + d'.requests == [first] + (d.requests + d'.requests);
      }
    }
  }

  lemma DrainNothing()
    ensures Drain(FRESH, []) == Drained([], FRESH, [])
  {
    RunStopped(FRESH, []);
  }

  /** The parser never rests in `GotAll`, and once in `Error` it stays there. */
  lemma {:induction false} DrainSettles(p: Parser, s: bytes)
    ensures Drain(p, s).parser.state != GotAll
    ensures p.state == Error ==> Drain(p, s) == Drained([], p, s)
    decreases |s|, p.state != ExpectRequestLine
  {
    var (p', s') := Run(p, s);
    if p'.state == GotAll && s' != [] {
      DrainSettles(FRESH, s');
    }
  }

  /**
   * Chunking invariance: after any sequence of chunks the connection has extracted the same requests, is in
   * the same parser state with the same bytes left over, and agrees on malformedness, as after one callback
   * with the whole stream.
   */
  lemma {:induction false} ChunkingInvariance(chunks: seq<bytes>)
    ensures ReceiveAll(NEW_SESSION, chunks) == Receive(NEW_SESSION, Concat(chunks))
    decreases |chunks|
  {
    hide Drain;
    if chunks == [] {
      assert NEW_SESSION.input + Concat(chunks) == [];
      DrainNothing();
    } else {
      var init, last := chunks[..|chunks| - 1], chunks[|chunks| - 1];
      ChunkingInvariance(init);
      var s := Concat(init);
      assert [] + s == s && [] + (s + last) == s + last;
      DrainResumes(FRESH, s, last);
      var d := Drain(FRESH, s);
      DrainSettles(d.parser, d.rest + last);
    }
  }

  /** Two ways of cutting one stream end in the same session. */
  lemma CutsAgree(a: seq<bytes>, b: seq<bytes>)
    requires Concat(a) == Concat(b)
    ensures ReceiveAll(NEW_SESSION, a) == ReceiveAll(NEW_SESSION, b)
  {
    ChunkingInvariance(a);
    ChunkingInvariance(b);
  }

  // ---- pipelining ----

  function PrintAll(requests: seq<Request>): bytes {
    if requests == [] then [] else Print(requests[0]) + PrintAll(requests[1..])
  }

  function PathsAndBodies(requests: seq<Request>): seq<Extracted> {
    seq(|requests|, i requires 0 <= i < |requests| => Extracted(requests[i].path, requests[i].body))
  }

  lemma {:induction false} DrainPipeline(requests: seq<Request>, rest: bytes)
    requires forall i :: 0 <= i < |requests| ==> WellFormed(requests[i])
    ensures var d := Drain(FRESH, rest);
            Drain(FRESH, PrintAll(requests) + rest) == d.(requests := PathsAndBodies(requests) + d.requests)
    decreases |requests|
  {
    hide Run, WellFormed, Print;
    var d := Drain(FRESH, rest);
    if requests == [] {
      assert PrintAll(requests) + rest == rest;
      assert PathsAndBodies(requests) + d.requests == d.requests;
    } else {
      var r, others := requests[0], requests[1..];
      var tail := PrintAll(others) + rest;
      assert PrintAll(requests) + rest == Print(r) + tail;
      PrintThenParse(r, tail);
      DrainPipeline(others, rest);
      assert PathsAndBodies(requests) + d.requests ==
             [Extracted(r.path, r.body)] + (PathsAndBodies(others) + d.requests);
      if tail == [] {
        DrainNothing();
      }
    }
  }

  /**
   * End to end: a client's well-formed requests, printed back to back and cut into chunks anywhere, are
   * extracted exactly, in order, and leave the connection fresh.
   */
  lemma {:induction false} PipelineDelivers(requests: seq<Request>, chunks: seq<bytes>)
    requires forall i :: 0 <= i < |requests| ==> WellFormed(requests[i])
    requires Concat(chunks) == PrintAll(requests)
    ensures ReceiveAll(NEW_SESSION, chunks) == Session(FRESH, [], PathsAndBodies(requests), false)
  {
    hide Drain;
    ChunkingInvariance(chunks);
    DrainPipeline(requests, []);
    assert PrintAll(requests) + [] == PrintAll(requests) && [] + PrintAll(requests) == PrintAll(requests);
    DrainNothing();
  }

  /** Everything extracted was sent: a stream splits into well-formed requests and what the parser still holds. */
  lemma {:induction false} ExtractedWereSent(s: bytes) returns (requests: seq<Request>, tail: bytes)
    ensures forall i :: 0 <= i < |requests| ==> WellFormed(requests[i])
    ensures s == PrintAll(requests) + tail
    ensures Drain(FRESH, s).requests == PathsAndBodies(requests)
    ensures (Drain(FRESH, s).parser, Drain(FRESH, s).rest) == Run(FRESH, tail)
    decreases |s|
  {
    hide Run, WellFormed, Print;
    var (p, rest) := Run(FRESH, s);
    if p.state != GotAll {
      requests, tail := [], s;
    } else {
      var r := ParseThenPrint(s);
      requests, tail := ExtractedWereSent(rest);
      requests := [r] + requests;
      assert PrintAll(requests) == Print(r) + PrintAll(requests[1..]);
      DrainNothing();
    }
  }

  // ---- what is served ----

  /** The requests one callback goes on to answer: none at all when it meets a malformed one. */
  function Served(c: Session, chunk: bytes): seq<Extracted> {
    var d := Drain(c.parser, c.input + chunk);
    if d.parser.state == Error then [] else d.requests
  }

  function ServedAll(chunks: seq<bytes>): seq<Extracted> {
    if chunks == [] then []
    else
      var init, last := chunks[..|chunks| - 1], chunks[|chunks| - 1];
      ServedAll(init) + Served(ReceiveAll(NEW_SESSION, init), last)
  }

  /** The callback for chunk `k` extracts requests and then meets a malformed one. */
  predicate Discards(chunks: seq<bytes>, k: nat)
    requires k < |chunks|
  {
    var c := ReceiveAll(NEW_SESSION, chunks[..k]);
    var d := Drain(c.parser, c.input + chunks[k]);
    d.parser.state == Error && d.requests != []
  }

  /**
   * Serving does depend on the cuts: what is served is what was extracted exactly when no callback that
   * extracted something also met a malformed request.
   */
  lemma {:induction false} ServedIsExtracted(chunks: seq<bytes>)
    ensures |ServedAll(chunks)| <= |ReceiveAll(NEW_SESSION, chunks).extracted|
    ensures ServedAll(chunks) == ReceiveAll(NEW_SESSION, chunks).extracted
       <==> (forall k :: 0 <= k < |chunks| ==> !Discards(chunks, k))
    decreases |chunks|
  {
    hide Drain;
    if chunks != [] {
      var init, last := chunks[..|chunks| - 1], chunks[|chunks| - 1];
      ServedIsExtracted(init);
      assert forall k :: 0 <= k < |init| ==> init[..k] == chunks[..k];
      assert forall k :: 0 <= k < |init| ==> (Discards(chunks, k) <==> Discards(init, k));
      var c := ReceiveAll(NEW_SESSION, init);
      var d := Drain(c.parser, c.input + last);
      assert Discards(chunks, |init|) <==> d.parser.state == Error && d.requests != [];
      assert ServedAll(chunks) == ServedAll(init) + Served(c, last);
      assert ReceiveAll(NEW_SESSION, chunks).extracted == c.extracted + d.requests;
      SplitEqual(ServedAll(init), Served(c, last), c.extracted, d.requests);
    }
  }

  lemma SplitEqual(a: seq<Extracted>, b: seq<Extracted>, c: seq<Extracted>, d: seq<Extracted>)
    requires |a| <= |c| && |b| <= |d|
    ensures |a + b| <= |c + d|
    ensures a + b == c + d <==> a == c && b == d
  {
    if a + b == c + d {
      assert (a + b)[..|a|] == a && (c + d)[..|c|] == c;
      assert (a + b)[|a|..] == b && (c + d)[|c|..] == d;
    }
  }

  lemma OneChunk(s: bytes)
    ensures Concat([s]) == s && ServedAll([s]) == Served(NEW_SESSION, s)
    ensures ReceiveAll(NEW_SESSION, [s]) == Receive(NEW_SESSION, s)
  {
    hide Drain;
    assert [s][..0] == [];
  }

  lemma TwoChunks(s: bytes, t: bytes)
    ensures Concat([s, t]) == s + t
    ensures ServedAll([s, t]) == Served(NEW_SESSION, s) + Served(Receive(NEW_SESSION, s), t)
  {
    hide Drain;
    OneChunk(s);
    assert [s, t][..1] == [s];
  }

  /** A good request and an empty line: cut between them the request is served, uncut it is not. */
  lemma ServingDependsOnCuts() returns (whole: seq<bytes>, cut: seq<bytes>)
    ensures Concat(whole) == Concat(cut) && |ServedAll(whole)| == 0 && |ServedAll(cut)| == 1
  {
    hide Print, WellFormed, Drain;
    var r := Request("GET", "/", "HTTP/1.1", [], []);
    RequestOfOneLine(r);
    var good := Print(r);
    whole, cut := [good + CRLF], [good, CRLF];
    OneChunk(good + CRLF);
    TwoChunks(good, CRLF);
    DrainPipeline([r], CRLF);
    DrainPipeline([r], []);
    EmptyLineFails();
    DrainNothing();
    assert PrintAll([r]) == good + PrintAll([]) == good;
    assert [] + (good + CRLF) == good + CRLF && good + [] == good == [] + good && [] + CRLF == CRLF;
    assert |PathsAndBodies([r])| == 1;
  }

  lemma RequestOfOneLine(r: Request)
    requires RequestLineOk(r) && r.fields == [] && r.body == []
    ensures WellFormed(r)
  {
  }

  lemma EmptyLineFails()
    ensures Drain(FRESH, CRLF) == Drained([], FRESH.(state := Error), CRLF)
  {
    FindCRLFAfterLine([], []);
    assert [] + CRLF + [] == CRLF;
    assert Step(FRESH, CRLF) == Some((FRESH.(state := Error), CRLF));
    RunStep(FRESH, CRLF);
    RunStopped(FRESH.(state := Error), CRLF);
  }

  // ---- when serving does not depend on the cuts ----

  /** A callback that discards requests leaves its mark on the session for good. */
  lemma {:induction false} DiscardsShow(chunks: seq<bytes>, k: nat)
    requires k < |chunks| && Discards(chunks, k)
    ensures var c := ReceiveAll(NEW_SESSION, chunks); c.malformed && c.extracted != []
    decreases |chunks|
  {
    hide Drain;
    var init := chunks[..|chunks| - 1];
    if k < |init| {
      assert init[..k] == chunks[..k];
      DiscardsShow(init, k);
    } else {
      assert chunks[..k] == init;
    }
  }

  /** Unless requests come before a malformed one, every way of cutting the stream serves all that is extracted. */
  lemma AllCutsServeAll(chunks: seq<bytes>)
    requires var d := Drain(FRESH, Concat(chunks)); d.parser.state != Error || d.requests == []
    ensures ServedAll(chunks) == Drain(FRESH, Concat(chunks)).requests
  {
    hide Drain, Discards;
    var s := Concat(chunks);
    ChunkingInvariance(chunks);
    assert [] + s == s;
    forall k | 0 <= k < |chunks|
      ensures !Discards(chunks, k)
    {
      if Discards(chunks, k) {
        DiscardsShow(chunks, k);
      }
    }
    ServedIsExtracted(chunks);
  }

  /** A stream with requests before a malformed one: uncut nothing is served, cut after the first request it is. */
  lemma CutAfterFirst(s: bytes) returns (cut: seq<bytes>)
    requires Drain(FRESH, s).parser.state == Error && Drain(FRESH, s).requests != []
    ensures Concat(cut) == s == Concat([s])
    ensures ServedAll([s]) == [] && ServedAll(cut) != []
  {
    var r := ParseThenPrint(s);
    hide Drain, Print, WellFormed, Run;
    var good, rest := Print(r), Run(FRESH, s).1;
    cut := [good, rest];
    TwoChunks(good, rest);
    OneChunk(s);
    DrainPipeline([r], []);
    DrainNothing();
    assert PrintAll([r]) == good + PrintAll([]) == good;
    assert good + [] == good == [] + good && [] + s == s;
    assert |PathsAndBodies([r])| == 1;
  }

  /**
   * What is served is independent of the cuts exactly when the stream as a whole is not malformed, or is so before
   * its first whole request.
   */
  lemma ServingIsCutIndependent(s: bytes)
    ensures (forall a, b :: Concat(a) == s && Concat(b) == s ==> ServedAll(a) == ServedAll(b))
       <==> Drain(FRESH, s).parser.state != Error || Drain(FRESH, s).requests == []
  {
    hide Drain, ServedAll;
    if Drain(FRESH, s).parser.state != Error || Drain(FRESH, s).requests == [] {
      forall a, b | Concat(a) == s && Concat(b) == s
        ensures ServedAll(a) == ServedAll(b)
      {
        AllCutsServeAll(a);
        AllCutsServeAll(b);
      }
    } else {
      var cut := CutAfterFirst(s);
      assert ServedAll([s]) != ServedAll(cut);
    }
  }

  /** `s` is one or more well-formed requests followed by something malformed. */
  ghost predicate GoodThenBad(s: bytes, requests: seq<Request>, tail: bytes) {
    && requests != [] && (forall i :: 0 <= i < |requests| ==> WellFormed(requests[i]))
    && s == PrintAll(requests) + tail
    && Run(FRESH, tail).0.state == Error
  }

  /** The same condition as a client can check it: nothing malformed is sent after a well-formed request. */
  lemma ServingIsCutIndependentWhenSent(s: bytes)
    ensures (forall a, b :: Concat(a) == s && Concat(b) == s ==> ServedAll(a) == ServedAll(b))
       <==> !(exists requests, tail :: GoodThenBad(s, requests, tail))
  {
    hide Drain, WellFormed, Run, ServedAll;
    ServingIsCutIndependent(s);
    if requests, tail :| GoodThenBad(s, requests, tail) {
      DrainPipeline(requests, tail);
      DrainFails(tail);
      assert |PathsAndBodies(requests)| == |requests|;
    }
    if Drain(FRESH, s).parser.state == Error && Drain(FRESH, s).requests != [] {
      var requests, tail := ExtractedWereSent(s);
      assert |PathsAndBodies(requests)| == |requests|;
      assert GoodThenBad(s, requests, tail);
    }
  }

  lemma DrainFails(s: bytes)
    requires Run(FRESH, s).0.state == Error
    ensures Drain(FRESH, s) == Drained([], Run(FRESH, s).0, Run(FRESH, s).1)
  {
    hide Run;
  }

  // ---- rejection ----

  /** The callback meets a malformed request, so it answers 400 and shuts the connection down. */
  function Rejects(c: Session, chunk: bytes): bool {
    Drain(c.parser, c.input + chunk).parser.state == Error
  }

  /** A callback rejects exactly when the stream so far is malformed, however it was cut. */
  lemma RejectsExactlyMalformed(chunks: seq<bytes>, chunk: bytes)
    ensures Rejects(ReceiveAll(NEW_SESSION, chunks), chunk)
       <==> Drain(FRESH, Concat(chunks) + chunk).parser.state == Error
  {
    hide Drain;
    ChunkingInvariance(chunks);
    var s := Concat(chunks);
    assert [] + s == s;
    DrainResumes(FRESH, s, chunk);
  }
}
