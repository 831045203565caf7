/**
 The client of the parser: callbacks that put requests together again, and the printing of
 requests.
 */
module HttpRequests {
  import opened HttpChars
  import opened HttpParser
  import opened HttpStream

  datatype Request = Request(verb: Method, url: string, headers: map<string, string>, body: string, keepAlive: bool)

  datatype LastCallback =
    | SawNothing | SawMessageBegin | SawUrl | SawHeaderField | SawHeaderValue | SawHeadersComplete | SawBody | SawMessageComplete

  /** _request, _buffer, _last_cb and _requests. `threw`: headers.at did not find its key. */
  datatype Sink = Sink(request: Request, buffer: string, lastCb: LastCallback, requests: seq<Request>, threw: bool)

  const EMPTY_SINK := Sink(Request(DELETE, "", map[], "", true), "", SawNothing, [], false)

  /** The callbacks of HttpRequestParser. Chunks are not reported to it. */
  function Handle(s: Sink, e: Event): Sink {
    match e
    case MessageBegin =>
      s.(request := Request(s.request.verb, "", map[], "", true), buffer := "", lastCb := SawMessageBegin)
    case HeadersComplete(m, alive) =>
      s.(buffer := "", request := s.request.(verb := m, keepAlive := alive), lastCb := SawHeadersComplete)
    case MessageComplete => s.(requests := s.requests + [s.request], lastCb := SawMessageComplete)
    case ChunkHeader => s
    case ChunkComplete => s
    case Part(UrlText, t) => s.(request := s.request.(url := s.request.url + t), lastCb := SawUrl)
    case Part(FieldText, t) => s.(buffer := (if s.lastCb == SawHeaderField then s.buffer else "") + t, lastCb := SawHeaderField)
    case Part(ValueText, t) => HandleValue(s, t)
    case Part(BodyText, t) => s.(request := s.request.(body := s.request.body + t), lastCb := SawBody)
  }

  function HandleValue(s: Sink, t: string): Sink {
    var headers := s.request.headers;
    var known := if s.lastCb == SawHeaderField && s.buffer !in headers then headers[s.buffer := ""] else headers;
    if s.buffer !in known then s.(threw := true, lastCb := SawHeaderValue)
    else s.(request := s.request.(headers := known[s.buffer := known[s.buffer] + t]), lastCb := SawHeaderValue)
  }

  function Replay(s: Sink, log: Log): Sink
    decreases |log|
  {
    if log == [] then s else Replay(Handle(s, log[0]), log[1..])
  }

  /** Text delivered in two calls has the effect of text delivered in one. */
  lemma HandleMerges(s: Sink, k: Kind, a: string, b: string)
    ensures Handle(Handle(s, Part(k, a)), Part(k, b)) == Handle(s, Part(k, a + b))
  {
    match k {
      case UrlText => assert s.request.url + a + b == s.request.url + (a + b);
      case FieldText =>
        var start := if s.lastCb == SawHeaderField then s.buffer else "";
        assert start + a + b == start + (a + b);
      case BodyText => assert s.request.body + a + b == s.request.body + (a + b);
      case ValueText =>
        var headers := s.request.headers;
        var known := if s.lastCb == SawHeaderField && s.buffer !in headers then headers[s.buffer := ""] else headers;
        if s.buffer in known {
          assert known[s.buffer] + a + b == known[s.buffer] + (a + b);
          assert known[s.buffer := known[s.buffer] + a][s.buffer := known[s.buffer] + a + b]
              == known[s.buffer := known[s.buffer] + (a + b)];
        }
    }
  }

  lemma {:induction false} ReplayConcat(s: Sink, a: Log, b: Log)
    ensures Replay(s, a + b) == Replay(Replay(s, a), b)
    decreases |a|
  {
    if a == [] {
      assert a + b == b;
    } else {
      assert (a + b)[1..] == a[1..] + b;
      ReplayConcat(Handle(s, a[0]), a[1..], b);
    }
  }

  /** Putting text together in the log does not change what the callbacks make of it. */
  lemma ReplayAppend(s: Sink, log: Log, e: Event)
    ensures Replay(s, Append(log, e)) == Handle(Replay(s, log), e)
  {
    if e.Part? && log != [] && log[|log| - 1].Part? && log[|log| - 1].kind == e.kind {
      var n := |log| - 1;
      ReplayConcat(s, log[..n], [log[n]]);
      assert log == log[..n] + [log[n]];
      ReplayConcat(s, log[..n], [Part(e.kind, log[n].text + e.text)]);
      HandleMerges(Replay(s, log[..n]), e.kind, log[n].text, e.text);
    } else {
      ReplayConcat(s, log, [e]);
    }
  }
}
