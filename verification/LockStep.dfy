/** Client and server joined by two byte channels: the client sends a request, waits for its reply,
    and goes on to the next; each side may be handed any piece of what has been sent to it. */
module LockStep {
  import opened Tally
  import opened Wire
  import opened Stream

  /** What the server makes of a package: the serialised response, or nothing if it cannot be parsed. */
  type Answer = string -> Option<string>

  /** `requests` are the serialised requests, `replies` the packages decoded so far; `waiting` is the
      client inside `GetResponse`. */
  datatype Link = Link(requests: seq<string>, sent: nat, waiting: bool, toServer: string, inBuffer: string,
                       toClient: string, respBuffer: string, replies: seq<string>)

  datatype Act = Send | ServerReads(n: nat) | ClientReads(n: nat)

  predicate Init(s: Link) {
    && s.sent == 0 && !s.waiting && s.toServer == "" && s.inBuffer == "" && s.toClient == "" && s.respBuffer == ""
    && s.replies == []
  }

  /** What the server sends for the packages it has extracted. */
  function Responses(answer: Answer, packages: seq<string>): string {
    if packages == [] then ""
    else (match answer(packages[0]) case Some(j) => Encode(j) case None => "") + Responses(answer, packages[1..])
  }

  predicate Enabled(s: Link, a: Act) {
    match a
    case Send => !s.waiting && s.sent < |s.requests|
    case ServerReads(n) => 1 <= n <= |s.toServer|
    case ClientReads(n) => s.waiting && 1 <= n <= |s.toClient|
  }

  function Apply(answer: Answer, s: Link, a: Act): Link
    requires Enabled(s, a)
  {
    match a
    case Send =>
      s.(sent := s.sent + 1, waiting := true, toServer := s.toServer + Encode(s.requests[s.sent]))
    case ServerReads(n) =>
      var d := Drain(s.inBuffer + CString(s.toServer[..n]));
      s.(toServer := s.toServer[n..], inBuffer := d.rest, toClient := s.toClient + Responses(answer, d.packages))
    case ClientReads(n) =>
      var b := s.respBuffer + CString(s.toClient[..n]);
      match Decode(b)
      case Frame(p, r) => s.(toClient := s.toClient[n..], respBuffer := r, waiting := false, replies := s.replies + [p])
      case _ => s.(toClient := s.toClient[n..], respBuffer := b)
  }

  ghost predicate Run(answer: Answer, s: Link, acts: seq<Act>, last: Link)
    decreases |acts|
  {
    if acts == [] then last == s
    else Enabled(s, acts[0]) && Run(answer, Apply(answer, s, acts[0]), acts[1..], last)
  }

  /** Everything that is to be sent can be framed; the server may still fail to parse a request. */
  predicate Framed(answer: Answer, requests: seq<string>) {
    forall k :: 0 <= k < |requests| ==>
      Sendable(requests[k]) && (answer(requests[k]).Some? ==> Sendable(answer(requests[k]).value))
  }

  /** Nothing is on its way and nothing is kept. */
  ghost predicate Settled(s: Link) {
    s.toServer == "" && s.inBuffer == "" && s.toClient == "" && s.respBuffer == ""
  }

  ghost predicate Asking(s: Link, request: string) {
    && s.inBuffer + s.toServer == Encode(request) && s.toServer != ""
    && s.toClient == "" && s.respBuffer == ""
  }

  ghost predicate Answering(s: Link, reply: string) {
    && s.inBuffer == "" && s.toServer == ""
    && s.respBuffer + s.toClient == Encode(reply) && s.toClient != ""
  }

  ghost predicate Answered(answer: Answer, s: Link) {
    && s.sent <= |s.requests|
    && |s.replies| == (if s.waiting then s.sent - 1 else s.sent)
    && forall k :: 0 <= k < |s.replies| ==> answer(s.requests[k]) == Some(s.replies[k])
  }

  /** Between calls everything is empty; during one, the request or the reply is on its way, or the
      server has dropped the request. */
  ghost predicate Inv(answer: Answer, s: Link) {
    && Framed(answer, s.requests)
    && (s.waiting ==> s.sent > 0)
    && Answered(answer, s)
    && if s.waiting then
         var request := s.requests[s.sent - 1];
         || Asking(s, request)
         || (answer(request) == None && Settled(s))
         || (answer(request).Some? && Answering(s, answer(request).value))
       else Settled(s)
  }

  lemma SendKeeps(answer: Answer, s: Link)
    requires Inv(answer, s) && Enabled(s, Send)
    ensures Inv(answer, Apply(answer, s, Send))
  {
  }

  lemma Split(b: string, c: string, n: nat, e: string)
    requires b + c == e && n <= |c|
    ensures (b + c[..n]) + c[n..] == e
    ensures n < |c| ==> b + c[..n] < e
    ensures n == |c| ==> b + c[..n] == e && c[n..] == ""
  {
    assert c[..n] + c[n..] == c;
    assert b + c[..n] == (b + c)[..|b| + n];
    if n == |c| {
      assert c[..n] == c;
    }
  }

  lemma PieceNoNul(b: string, c: string, n: nat, j: string)
    requires b + c == Encode(j) && NoNul(j) && n <= |c|
    ensures CString(c[..n]) == c[..n]
  {
    EncodeNoNul(j);
    assert forall x :: x in c[..n] ==> x in b + c;
    CStringWhole(c[..n]);
  }

  lemma DrainWhole(j: string, b: string)
    requires Fits(j) && b == Encode(j)
    ensures Drain(b) == Drained([j], "", NeedsMore)
  {
    EmptyIsTail();
    DecodeWhole(j, b);
    DrainTail("");
    EncodeShape(j);
  }

  lemma DrainPart(j: string, b: string)
    requires Fits(j) && b < Encode(j)
    ensures Drain(b) == Drained([], b, NeedsMore)
  {
    DecodeOfPart(j, b);
  }

  lemma OneResponse(answer: Answer, j: string)
    ensures Responses(answer, [j]) == match answer(j) case Some(r) => Encode(r) case None => ""
    ensures Responses(answer, []) == ""
  {
    assert [j][1..] == [];
  }

  lemma ServerKeeps(answer: Answer, s: Link, n: nat)
    requires Inv(answer, s) && Enabled(s, ServerReads(n))
    ensures Inv(answer, Apply(answer, s, ServerReads(n)))
  {
    var j := s.requests[s.sent - 1];
    Split(s.inBuffer, s.toServer, n, Encode(j));
    PieceNoNul(s.inBuffer, s.toServer, n, j);
    OneResponse(answer, j);
    if n < |s.toServer| {
      DrainPart(j, s.inBuffer + s.toServer[..n]);
    } else {
      DrainWhole(j, s.inBuffer + s.toServer[..n]);
      if answer(j).Some? {
        EncodeShape(answer(j).value);
      }
    }
  }

  lemma ClientKeeps(answer: Answer, s: Link, n: nat)
    requires Inv(answer, s) && Enabled(s, ClientReads(n))
    ensures Inv(answer, Apply(answer, s, ClientReads(n)))
  {
    var j := answer(s.requests[s.sent - 1]).value;
    Split(s.respBuffer, s.toClient, n, Encode(j));
    PieceNoNul(s.respBuffer, s.toClient, n, j);
    if n < |s.toClient| {
      DecodeOfPart(j, s.respBuffer + s.toClient[..n]);
    } else {
      DecodeWhole(j, s.respBuffer + s.toClient[..n]);
    }
  }

  lemma InvKept(answer: Answer, s: Link, a: Act)
    requires Inv(answer, s) && Enabled(s, a)
    ensures Inv(answer, Apply(answer, s, a)) && Apply(answer, s, a).requests == s.requests
  {
    match a
    case Send => SendKeeps(answer, s);
    case ServerReads(n) => ServerKeeps(answer, s, n);
    case ClientReads(n) => ClientKeeps(answer, s, n);
  }

  // ---- the conversation ends ----

  function ReplyBytes(answer: Answer, request: string): nat {
    match answer(request) case Some(j) => |Encode(j)| case None => 0
  }

  /** The bytes still to be read, and one step for each request still to be sent. */
  function Cost(answer: Answer, requests: seq<string>): nat {
    if requests == [] then 0
    else 1 + |Encode(requests[0])| + ReplyBytes(answer, requests[0]) + Cost(answer, requests[1..])
  }

  function Measure(answer: Answer, s: Link): nat
    requires s.sent <= |s.requests|
  {
    Cost(answer, s.requests[s.sent..]) + |s.toServer| + |s.toClient|
    + if s.toServer != "" && s.sent > 0 then ReplyBytes(answer, s.requests[s.sent - 1]) else 0
  }

  lemma MeasureDrops(answer: Answer, s: Link, a: Act)
    requires Inv(answer, s) && Enabled(s, a)
    ensures Apply(answer, s, a).sent <= |s.requests|
    ensures Apply(answer, s, a).requests == s.requests
    ensures Measure(answer, Apply(answer, s, a)) < Measure(answer, s)
  {
    match a
    case Send =>
      assert s.requests[s.sent..][1..] == s.requests[s.sent + 1..];
    case ServerReads(n) => ServerDrops(answer, s, n);
    case ClientReads(n) =>
  }

  lemma ServerDrops(answer: Answer, s: Link, n: nat)
    requires Inv(answer, s) && Enabled(s, ServerReads(n))
    ensures Measure(answer, Apply(answer, s, ServerReads(n))) < Measure(answer, s)
  {
    var j := s.requests[s.sent - 1];
    Split(s.inBuffer, s.toServer, n, Encode(j));
    PieceNoNul(s.inBuffer, s.toServer, n, j);
    OneResponse(answer, j);
    if n < |s.toServer| {
      DrainPart(j, s.inBuffer + s.toServer[..n]);
    } else {
      DrainWhole(j, s.inBuffer + s.toServer[..n]);
    }
  }

  /** The server has dropped the request the client is waiting for. */
  ghost predicate Stalled(answer: Answer, s: Link) {
    s.waiting && 0 < s.sent <= |s.requests| && answer(s.requests[s.sent - 1]) == None && Settled(s)
  }

  lemma WhoMoves(answer: Answer, s: Link)
    requires Inv(answer, s)
    ensures (forall a :: !Enabled(s, a)) <==> Stalled(answer, s) || (!s.waiting && s.sent == |s.requests|)
  {
    assert !s.waiting && s.sent < |s.requests| ==> Enabled(s, Send);
    assert s.toServer != "" ==> Enabled(s, ServerReads(1));
    assert s.waiting && s.toClient != "" ==> Enabled(s, ClientReads(1));
  }

  lemma {:induction false} RunKeepsInv(answer: Answer, s: Link, acts: seq<Act>, last: Link)
    requires Inv(answer, s) && Run(answer, s, acts, last)
    ensures Inv(answer, last) && last.requests == s.requests
    ensures |acts| + Measure(answer, last) <= Measure(answer, s)
    decreases |acts|
  {
    if acts != [] {
      InvKept(answer, s, acts[0]);
      MeasureDrops(answer, s, acts[0]);
      RunKeepsInv(answer, Apply(answer, s, acts[0]), acts[1..], last);
    }
  }

  /** In every run, however the bytes are split, the k-th reply decoded is the server's answer to the
      k-th request; the response buffer is empty whenever the client is not waiting, so that receiving
      before decoding misses nothing; and the conversation ends after boundedly many reads, exactly
      with the last reply or with the first request the server cannot parse, which is never answered. */
  lemma RepliesMatchRequests(answer: Answer, s: Link, acts: seq<Act>, last: Link)
    requires Init(s) && Framed(answer, s.requests) && Run(answer, s, acts, last)
    ensures last.requests == s.requests && |last.replies| <= |s.requests|
    ensures forall k :: 0 <= k < |last.replies| ==> answer(s.requests[k]) == Some(last.replies[k])
    ensures !last.waiting ==> last.respBuffer == "" && last.inBuffer == "" && |last.replies| == last.sent
    ensures |acts| <= Measure(answer, s)
    ensures (forall a :: !Enabled(last, a)) <==>
      if last.waiting then |last.replies| < |s.requests| && answer(s.requests[|last.replies|]) == None && Settled(last)
      else |last.replies| == |s.requests|
  {
    RunKeepsInv(answer, s, acts, last);
    WhoMoves(answer, last);
  }

  // ---- many requests at once ----

  /** The answers to those requests that can be parsed. */
  function Replies(answer: Answer, requests: seq<string>): seq<string> {
    if requests == [] then []
    else (match answer(requests[0]) case Some(j) => [j] case None => []) + Replies(answer, requests[1..])
  }

  /** Requests sent without waiting are all answered, in order and frame by frame, however they arrive. */
  lemma PipelinedRequestsAnswered(answer: Answer, requests: seq<string>, chunks: seq<string>)
    requires forall p :: p in requests ==> Sendable(p)
    requires Concat(chunks) == Frames(requests) && |Frames(requests)| <= MAX_SIZE
    ensures Responses(answer, Serve("", chunks).packages) == Frames(Replies(answer, requests))
  {
    AllSplitsAgree(requests, chunks, chunks);
    AnsweredFrames(answer, requests);
  }

  lemma {:induction false} AnsweredFrames(answer: Answer, requests: seq<string>)
    ensures Responses(answer, requests) == Frames(Replies(answer, requests))
  {
    if requests != [] {
      AnsweredFrames(answer, requests[1..]);
      if answer(requests[0]).Some? {
        assert Replies(answer, requests)[1..] == Replies(answer, requests[1..]);
      } else {
        assert Replies(answer, requests) == Replies(answer, requests[1..]);
      }
    }
  }

  // ---- requests and responses ----

  /** The JSON library, as far as the protocol relies on it. */
  datatype Json<!Request, !Response> = Json(
    printRequest: Request -> string, parseRequest: string -> Option<Request>,
    printResponse: Response -> string, parseResponse: string -> Option<Response>)

  /** What this request prints to can be framed, and parses to what it was ... */
  ghost predicate CarriesRequest<Request, Response>(json: Json<Request, Response>, r: Request) {
    Sendable(json.printRequest(r)) && json.parseRequest(json.printRequest(r)) == Some(r)
  }

  /** ... and so does what this response prints to. */
  ghost predicate CarriesResponse<Request, Response>(json: Json<Request, Response>, r: Response) {
    Sendable(json.printResponse(r)) && json.parseResponse(json.printResponse(r)) == Some(r)
  }

  /** The body of the server's loop: deserialise, compute, serialise; or skip a bad package. */
  function Handler<Request, Response>(json: Json<Request, Response>, compute: Request -> Response): Answer {
    package =>
      match json.parseRequest(package)
      case None => None
      case Some(request) => Some(json.printResponse(compute(request)))
  }

  /** Response number k that the client gets is the computation applied to its request number k, as long
      as these requests and responses survive being printed and parsed. */
  lemma ResponsesMatch<Request, Response>(
      json: Json<Request, Response>, compute: Request -> Response, requests: seq<Request>, s: Link, acts: seq<Act>, last: Link)
    requires Init(s) && |s.requests| == |requests|
    requires forall k :: 0 <= k < |requests| ==> s.requests[k] == json.printRequest(requests[k])
    requires forall k :: 0 <= k < |requests| ==> CarriesRequest(json, requests[k]) && CarriesResponse(json, compute(requests[k]))
    requires Run(Handler(json, compute), s, acts, last)
    ensures |last.replies| <= |requests|
    ensures forall k :: 0 <= k < |last.replies| ==> json.parseResponse(last.replies[k]) == Some(compute(requests[k]))
    ensures (forall a :: !Enabled(last, a)) ==> |last.replies| == |requests|
  {
    var answer := Handler(json, compute);
    forall k | 0 <= k < |requests|
      ensures Sendable(s.requests[k]) && answer(s.requests[k]) == Some(json.printResponse(compute(requests[k])))
    {
      assert CarriesRequest(json, requests[k]) && CarriesResponse(json, compute(requests[k]));
    }
    RepliesMatchRequests(answer, s, acts, last);
  }
}
