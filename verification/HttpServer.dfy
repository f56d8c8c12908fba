/** The message callback of the chat server: the loop that takes whole requests out of a connection's buffer. */
module HttpServer {
  import opened Bytes
  import opened ByteBuffer
  import opened HttpSyntax
  import opened HttpParsing
  import opened HttpStream

  class HttpConnection {
    const input: Buffer
    const parser: HttpParser
    // Every request extracted so far, and whether a callback ever met a malformed one.
    ghost var extracted: seq<Extracted>
    ghost var malformed: bool

    ghost predicate Valid()
      reads this, input
    {
      input.Valid()
    }

    ghost function Value(): Session
      requires Valid()
      reads this, input, input.data, parser
    {
      Session(parser.Value(), input.Readable(), extracted, malformed)
    }

    constructor ()
      ensures Valid() && fresh(input) && fresh(input.data) && fresh(parser)
      ensures Value() == NEW_SESSION
    {
      input := new Buffer(1024);
      parser := new HttpParser();
      extracted, malformed := [], false;
    }

    /** The `while (true)` loop: parse, collect, reset, until input runs out or fails. */
    method ExtractRequests() returns (requests: seq<Extracted>, failed: bool)
      requires Valid()
      modifies input, parser
      ensures Valid() && input.data == old(input.data)
      ensures Drained(requests, parser.Value(), input.Readable()) == Drain(old(parser.Value()), old(input.Readable()))
      ensures failed == (parser.state == Error)
    {
      hide Run;
      requests := [];
      var again := true;
      ghost var whole := Drain(parser.Value(), input.Readable());
      while again
        invariant Valid() && input.data == old(input.data)
        invariant again ==>
                    var d := Drain(parser.Value(), input.Readable());
                    whole == d.(requests := requests + d.requests)
        invariant !again ==> whole == Drained(requests, parser.Value(), input.Readable())
        decreases again, |input.Readable()|, parser.state != ExpectRequestLine
      {
        ghost var d := Drain(parser.Value(), input.Readable());
        ghost var before := requests;
        var ok := parser.ParseRequest(input);
        if !ok {
          again := false;
          assert requests + [] == requests;
        } else if parser.state != GotAll {
          again := false;
          assert requests + [] == requests;
        } else {
          requests := requests + [Extracted(parser.path, parser.body)];
          parser.Reset();
          if input.ReadableBytes() == 0 {
            again := false;
          } else {
            assert before + d.requests == requests + d.requests[1..];
          }
        }
      }
      DrainSettles(old(parser.Value()), old(input.Readable()));
      failed := parser.state == Error;
    }

    /**
     * A readable event: one read into the buffer, then the callback, which serves all it extracts, or nothing
     * and answers 400 and shuts down.
     */
    method OnMessage(chunk: bytes) returns (served: seq<Extracted>, rejected: bool)
      requires Valid() && |chunk| <= input.ReadLimit()
      modifies this, input, input.data, parser
      ensures Valid() && (input.data == old(input.data) || fresh(input.data))
      ensures Value() == Receive(old(Value()), chunk)
      ensures served == Served(old(Value()), chunk) && rejected == Rejects(old(Value()), chunk)
    {
      var n, savedErrno := input.ReadFd(Delivered(chunk));
      var requests, failed := ExtractRequests();
      extracted := extracted + requests;
      malformed := malformed || failed;
      rejected := failed;
      served := if failed then [] else requests;
    }
  }
}
