/**
 The request parser as the master uses it: called once for every fragment that arrives.
 */
module HttpServer {
  import opened HttpParser
  import opened HttpStream
  import opened HttpRequests
  import opened HttpExecute
  import opened HttpFragments
  import opened HttpRoundTrip
  import HttpMessages

  /** The parser between two calls. */
  ghost function Now(parser: RequestParser): Cursor
    reads parser
  {
    Cursor(parser.p, parser.nread, parser.log, 0, false, false)
  }

  /** FeedAll does not see where in a fragment it begins. */
  lemma FeedAllAgrees(cfg: Config, a: Cursor, b: Cursor, pieces: seq<string>)
    requires (Running(a) ==> Fit(a)) && (Running(b) ==> Fit(b)) && Agree(a, b)
    ensures Agree(FeedAll(cfg, a, pieces), FeedAll(cfg, b, pieces))
  {
  }

  lemma FeedAllStep(cfg: Config, c: Cursor, pieces: seq<string>, i: nat, end: Cursor)
    requires i < |pieces| && Running(c) && Fit(c) && c == Refreshed(c)
    requires Agree(FeedAll(cfg, c, pieces[i..]), end) && Running(end)
    ensures var d := Feed(cfg, c, pieces[i]); Running(d) && Agree(FeedAll(cfg, d, pieces[i + 1..]), end)
  {
    hide Feed, FitFor;
    assert pieces[i..][1..] == pieces[i + 1..];
  }

  /** A stream that the byte machine accepts leaves the real parser with the same result. */
  method Serve(parser: RequestParser, pieces: seq<string>)
    requires parser.Valid() && Now(parser) == BEGIN && NonEmpty(pieces)
    requires Running(Fed(parser.cfg, pieces))
    modifies parser
    ensures parser.Valid()
    ensures Agree(Now(parser), Fed(parser.cfg, pieces))
  {
    hide Feed, FeedAll, FitFor, Replay, Continues;
    ghost var end := Fed(parser.cfg, pieces);
    assert pieces[0..] == pieces;
    for i := 0 to |pieces|
      invariant parser.Valid() && parser.p.errno == Ok
      invariant Agree(FeedAll(parser.cfg, Now(parser), pieces[i..]), end)
    {
      ghost var c := Now(parser);
      assert pieces[i] != "";
      FeedAllStep(parser.cfg, c, pieces, i, end);
      var n := parser.Execute(pieces[i]);
      FeedAllAgrees(parser.cfg, Feed(parser.cfg, c, pieces[i]), Now(parser), pieces[i + 1..]);
    }
    NoPieces(parser.cfg, Now(parser), pieces[|pieces|..]);
  }

  lemma NoPieces(cfg: Config, c: Cursor, pieces: seq<string>)
    requires pieces == [] && (Running(c) ==> Fit(c))
    ensures FeedAll(cfg, c, pieces) == c
  {
  }

  /** Printed requests, however the stream is cut, are queued by the real parser as they were. */
  method ReceiveRequests(parser: RequestParser, ghost xs: seq<Printed>, pieces: seq<string>)
    requires parser.Valid() && Now(parser) == BEGIN
    requires AllPromised(parser.cfg, xs) && AllTaken(parser.cfg, xs)
    requires NonEmpty(pieces) && Join(pieces) == PrintAll(parser.cfg, xs)
    modifies parser
    ensures parser.Valid() && parser.p.errno == Ok
    ensures parser.sink.requests == Requests(xs) && !parser.sink.threw
  {
    hide FeedAll, PrintAll, Join, Replay, FitFor, Readable, Promised;
    RequestsAreReadBack(parser.cfg, xs, pieces);
    Serve(parser, pieces);
  }

  /** The same for streams of any versions, in which some of the bodies are in chunks, and the last of which may
      close the connection. */
  method ReceiveMessages(parser: RequestParser, ghost ms: seq<HttpMessages.Message>, pieces: seq<string>)
    requires parser.Valid() && Now(parser) == BEGIN
    requires HttpMessages.AllOffered(parser.cfg, ms) && HttpMessages.AllTakenAfter(parser.cfg, ms, 0)
    requires NonEmpty(pieces) && Join(pieces) == HttpMessages.WrittenAll(ms)
    modifies parser
    ensures parser.Valid() && parser.p.errno == Ok
    ensures parser.sink.requests == HttpMessages.WantedAll(ms) && !parser.sink.threw
  {
    hide FeedAll, HttpMessages.WrittenAll, HttpMessages.WantedAll, HttpMessages.AllTakenAfter, Join, Replay, FitFor, HttpMessages.Offered;
    HttpMessages.MessagesAreReadBack(parser.cfg, ms, pieces);
    Serve(parser, pieces);
  }
}
