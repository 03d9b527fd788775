/** The protocol class: `Decode` on a buffer it erases from, and the two receive loops. */
module Protocols {
  import opened Tally
  import opened Wire
  import opened Stream
  import opened LockStep

  /** The program's `int`. */
  type Int32 = n: int | INT_MIN <= n <= INT_MAX

  datatype Request = Request(x: Int32, y: Int32, oper: char)
  datatype Response = Response(result: Int32, code: Int32)

  class ByteBuffer {
    var text: string
    constructor (text: string)
      ensures this.text == text
    {
      this.text := text;
    }
  }

  /** A connected socket: the chunks still to be received, how the stream ends, and what was sent. */
  class Socket {
    var chunks: seq<string>
    const fails: bool
    var outgoing: string

    ghost predicate Valid()
      reads this
    {
      forall c :: c in chunks ==> c != ""
    }

    constructor (chunks: seq<string>, fails: bool)
      requires forall c :: c in chunks ==> c != ""
      ensures Valid() && this.chunks == chunks && this.fails == fails && outgoing == ""
    {
      this.chunks, this.fails, outgoing := chunks, fails, "";
    }

    /** The number of bytes received, appended to `out` up to the first NUL; 0 at the end, -1 on failure. */
    method Recv(out: ByteBuffer) returns (n: int)
      requires Valid()
      modifies this`chunks, out
      ensures Valid() && (n > 0 <==> old(chunks) != [])
      ensures n > 0 ==> n == |old(chunks)[0]| && chunks == old(chunks)[1..] && out.text == old(out.text) + CString(old(chunks)[0])
      ensures n <= 0 ==> chunks == [] && out.text == old(out.text) && n == if fails then -1 else 0
    {
      if |chunks| == 0 {
        return if fails then -1 else 0;
      }
      assert chunks[0] in chunks;
      assert forall c :: c in chunks[1..] ==> c in chunks;
      n := |chunks[0]|;
      out.text := out.text + CString(chunks[0]);
      chunks := chunks[1..];
    }

    method Send(message: string)
      modifies this`outgoing
      ensures outgoing == old(outgoing) + message
    {
      outgoing := outgoing + message;
    }
  }

  lemma FirstAndRest<U>(a: seq<U>, b: seq<U>)
    requires a != []
    ensures (a + b)[0] == a[0] && (a + b)[1..] == a[1..] + b
  {
  }

  lemma {:induction false} ResponsesAppend(answer: Answer, a: seq<string>, b: seq<string>)
    ensures Responses(answer, a + b) == Responses(answer, a) + Responses(answer, b)
    decreases |a|
  {
    if a == [] {
      assert a + b == b;
    } else {
      ResponsesAppend(answer, a[1..], b);
      FirstAndRest(a, b);
      Reassociate(match answer(a[0]) case Some(j) => Encode(j) case None => "", Responses(answer, a[1..]), Responses(answer, b));
    }
  }

  /** The packages with the numbers `answered`, in this order, are those that can be parsed. */
  ghost predicate Parsable<Request, Response>(json: Json<Request, Response>, packages: seq<string>, answered: seq<nat>) {
    && (forall i, j :: 0 <= i < j < |answered| ==> answered[i] < answered[j])
    && (forall i :: 0 <= i < |answered| ==> answered[i] < |packages| && json.parseRequest(packages[answered[i]]).Some?)
    && (forall k :: 0 <= k < |packages| && json.parseRequest(packages[k]).Some? ==> k in answered)
  }

  lemma ParsableOneMore<Request, Response>(json: Json<Request, Response>, packages: seq<string>, answered: seq<nat>)
    requires packages != [] && Parsable(json, packages[..|packages| - 1], answered)
    ensures var n := |packages| - 1;
      Parsable(json, packages, if json.parseRequest(packages[n]).Some? then answered + [n] else answered)
  {
    var n := |packages| - 1;
    forall k | 0 <= k < n && json.parseRequest(packages[k]).Some? ensures k in answered && k in answered + [n] {
      assert packages[..n][k] == packages[k];
    }
    assert n in answered + [n];
  }

  /** `responses` are those computed for the packages with the numbers `answered`, the ones that can be parsed. */
  ghost predicate Answers<Request, Response>(
      json: Json<Request, Response>, compute: Request -> Response, packages: seq<string>, answered: seq<nat>, responses: seq<string>)
  {
    && Parsable(json, packages, answered) && |responses| == |answered|
    && forall i :: 0 <= i < |answered| ==>
         responses[i] == json.printResponse(compute(json.parseRequest(packages[answered[i]]).value))
  }

  lemma AnswersOneMore<Request, Response>(
      json: Json<Request, Response>, compute: Request -> Response, packages: seq<string>, answered: seq<nat>, responses: seq<string>)
    requires packages != [] && Answers(json, compute, packages[..|packages| - 1], answered, responses)
    ensures match json.parseRequest(packages[|packages| - 1])
            case None => Answers(json, compute, packages, answered, responses)
            case Some(r) =>
              Answers(json, compute, packages, answered + [|packages| - 1], responses + [json.printResponse(compute(r))])
  {
    ParsableOneMore(json, packages, answered);
  }

  /** What is sent for a list of packages: one frame for each package that can be parsed, in order, with
      the response computed for it; nothing for the others. */
  lemma {:induction false} ResponsesAre<Request, Response>(
      json: Json<Request, Response>, compute: Request -> Response, packages: seq<string>)
      returns (answered: seq<nat>, responses: seq<string>)
    ensures Answers(json, compute, packages, answered, responses)
    ensures Responses(Handler(json, compute), packages) == Frames(responses)
    decreases |packages|
  {
    answered, responses := [], [];
    if packages != [] {
      var n := |packages| - 1;
      answered, responses := ResponsesAre(json, compute, packages[..n]);
      AnswersOneMore(json, compute, packages, answered, responses);
      LastResponse(json, compute, packages, responses);
      var request := json.parseRequest(packages[n]);
      if request.Some? {
        answered := answered + [n];
        responses := responses + [json.printResponse(compute(request.value))];
      }
    }
  }

  lemma LastResponse<Request, Response>(
      json: Json<Request, Response>, compute: Request -> Response, packages: seq<string>, before: seq<string>)
    requires packages != [] && Responses(Handler(json, compute), packages[..|packages| - 1]) == Frames(before)
    ensures Responses(Handler(json, compute), packages) == Frames(
      match json.parseRequest(packages[|packages| - 1])
      case None => before
      case Some(r) => before + [json.printResponse(compute(r))])
  {
    var n := |packages| - 1;
    assert packages == packages[..n] + [packages[n]];
    ResponsesAppend(Handler(json, compute), packages[..n], [packages[n]]);
    OneResponse(Handler(json, compute), packages[n]);
    var request := json.parseRequest(packages[n]);
    if request.Some? {
      FramesAppend(before, json.printResponse(compute(request.value)));
    }
  }

  lemma FramesAppend(ps: seq<string>, p: string)
    ensures Frames(ps + [p]) == Frames(ps) + Encode(p)
  {
    FramesSplit(ps + [p], |ps|);
    assert (ps + [p])[..|ps|] == ps && (ps + [p])[|ps|..] == [p] && [p][1..] == [];
    assert Encode(p) + "" == Encode(p);
  }

  lemma SentOn(answer: Answer, base: string, now: string, next: string, ps: seq<string>, qs: seq<string>)
    requires now == base + Responses(answer, ps) && next == now + Responses(answer, qs)
    ensures next == base + Responses(answer, ps + qs)
  {
    ResponsesAppend(answer, ps, qs);
  }

  /** One turn of the inner loop, seen from the result. */
  lemma DrainTurn(all: Drained, ps: seq<string>, b: string)
    requires all == Prepend(ps, Drain(b))
    ensures Wire.Decode(b).Incomplete? ==> all == Drained(ps, b, NeedsMore)
    ensures Wire.Decode(b).Throws? ==> all == Drained(ps, b, Threw)
    ensures Wire.Decode(b).Frame? && |Wire.Decode(b).rest| < |b| ==>
      all == Prepend(ps + [Wire.Decode(b).package], Drain(Wire.Decode(b).rest))
    ensures Wire.Decode(b).Frame? && |Wire.Decode(b).rest| >= |b| ==>
      all == Drained(ps + [Wire.Decode(b).package], Wire.Decode(b).rest, Spins)
  {
    assert ps + [] == ps;
    if Wire.Decode(b).Frame? {
      PrependTwice(ps, [Wire.Decode(b).package], Drain(Wire.Decode(b).rest));
    }
  }

  /** One turn of the outer loop. */
  lemma ServeTurn(all: Drained, ps: seq<string>, b: string, chunks: seq<string>)
    requires all == Prepend(ps, Serve(b, chunks))
    ensures chunks == [] ==> all == Drained(ps, b, NeedsMore)
    ensures chunks != [] ==>
      var d := Drain(b + CString(chunks[0]));
      if d.why == NeedsMore then all == Prepend(ps + d.packages, Serve(d.rest, chunks[1..]))
      else all == Drained(ps + d.packages, d.rest, d.why)
  {
    assert ps + [] == ps;
    if chunks != [] {
      var d := Drain(b + CString(chunks[0]));
      PrependTwice(ps, d.packages, Serve(d.rest, chunks[1..]));
    }
  }

  /** How `GetRequest` ends: the peer has closed, `recv` failed, an exception, or never. */
  datatype End = PeerClosed | RecvError | StoiThrew | LoopSpins

  function WhyOf(end: End): Why {
    match end
    case PeerClosed => NeedsMore
    case RecvError => NeedsMore
    case StoiThrew => Threw
    case LoopSpins => Spins
  }

  class Protocol {
    const json: Json<Request, Response>
    const compute: Request -> Response

    constructor (json: Json<Request, Response>, compute: Request -> Response)
      ensures this.json == json && this.compute == compute
    {
      this.json, this.compute := json, compute;
    }

    /** What the server makes of a package. */
    ghost function Server(): Answer { Handler(json, compute) }

    /** One complete package is taken off the front of the buffer, if there is one. */
    method Decode(buffer: ByteBuffer) returns (found: bool, threw: bool, package: string)
      modifies buffer
      ensures threw <==> Wire.Decode(old(buffer.text)).Throws?
      ensures found <==> Wire.Decode(old(buffer.text)).Frame?
      ensures found ==> Wire.Decode(old(buffer.text)) == Frame(package, buffer.text)
      ensures !found ==> buffer.text == old(buffer.text)
    {
      found, threw, package := false, false, "";
      var pos := Find(buffer.text);
      if pos.None? {
        return;
      }
      FindInside(buffer.text);
      var lengthText := buffer.text[..pos.value];
      var length := Stoi(lengthText);
      if !length.Value? {
        threw := true;
        return;
      }
      var target := ToSize(ToInt(ToSize(|lengthText| + ToSize(length.n) + |SEP| * 2)));
      if |buffer.text| < target {
        return;
      }
      var start := pos.value + |SEP|;
      var stop := if start + ToSize(length.n) <= |buffer.text| then start + ToSize(length.n) else |buffer.text|;
      package := buffer.text[start..stop];
      buffer.text := buffer.text[target..];
      found := true;
    }

    /** Deserialise, compute, serialise, frame and send; a package that cannot be parsed is skipped. */
    method Respond(sock: Socket, package: string)
      modifies sock`outgoing
      ensures sock.outgoing == old(sock.outgoing) + Responses(Server(), [package])
      ensures match json.parseRequest(package)
              case None => sock.outgoing == old(sock.outgoing)
              case Some(r) => sock.outgoing == old(sock.outgoing) + Encode(json.printResponse(compute(r)))
    {
      assert [package][1..] == [];
      var request := json.parseRequest(package);
      if request.Some? {
        var response := compute(request.value);
        var jsonStr := json.printResponse(response);
        var sendStr := Encode(jsonStr);
        sock.Send(sendStr);
      }
    }

    /** The inner loop of `GetRequest`: every complete package is answered. `packages` lists them. */
    method AnswerAll(sock: Socket, inbuffer: ByteBuffer) returns (why: Why, packages: seq<string>)
      modifies inbuffer, sock`outgoing
      ensures Drained(packages, inbuffer.text, why) == Drain(old(inbuffer.text))
      ensures sock.outgoing == old(sock.outgoing) + Responses(Server(), packages)
    {
      packages := [];
      ghost var all, base := Drain(inbuffer.text), sock.outgoing;
      PrependTwice([], [], all);
      while true
        invariant all == Prepend(packages, Drain(inbuffer.text))
        invariant sock.outgoing == base + Responses(Server(), packages)
        decreases |inbuffer.text|
      {
        DrainTurn(all, packages, inbuffer.text);
        var size := |inbuffer.text|;
        var found, threw, package := Decode(inbuffer);
        if !found {
          return if threw then Threw else NeedsMore, packages;
        }
        ghost var sent := sock.outgoing;
        Respond(sock, package);
        SentOn(Server(), base, sent, sock.outgoing, packages, [package]);
        packages := packages + [package];
        if |inbuffer.text| >= size {
          return Spins, packages;
        }
      }
    }

    /** `GetRequest`: until the peer closes, everything it sends that can be parsed is answered in order,
        by one frame each; what cannot be parsed is skipped. */
    method GetRequest(sock: Socket) returns (end: End, packages: seq<string>, rest: string,
                                             ghost answered: seq<nat>, ghost responses: seq<string>)
      requires sock.Valid()
      modifies sock
      ensures Drained(packages, rest, WhyOf(end)) == Serve("", old(sock.chunks))
      ensures Parsable(json, packages, answered) && |responses| == |answered|
      ensures forall i :: 0 <= i < |answered| ==>
        responses[i] == json.printResponse(compute(json.parseRequest(packages[answered[i]]).value))
      ensures sock.outgoing == old(sock.outgoing) + Frames(responses)
      ensures end == PeerClosed || end == RecvError ==> (end == RecvError <==> sock.fails) && sock.chunks == []
    {
      end, packages, rest := ReceiveRequests(sock);
      answered, responses := ResponsesAre(json, compute, packages);
    }

    /** Its loops. */
    method ReceiveRequests(sock: Socket) returns (end: End, packages: seq<string>, rest: string)
      requires sock.Valid()
      modifies sock
      ensures Drained(packages, rest, WhyOf(end)) == Serve("", old(sock.chunks))
      ensures sock.outgoing == old(sock.outgoing) + Responses(Server(), packages)
      ensures end == PeerClosed || end == RecvError ==> (end == RecvError <==> sock.fails) && sock.chunks == []
    {
      var inbuffer := new ByteBuffer("");
      packages := [];
      ghost var all, base := Serve("", sock.chunks), sock.outgoing;
      PrependTwice([], [], all);
      while true
        invariant sock.Valid() && fresh(inbuffer)
        invariant all == Prepend(packages, Serve(inbuffer.text, sock.chunks))
        invariant sock.outgoing == base + Responses(Server(), packages)
        decreases |sock.chunks|
      {
        ServeTurn(all, packages, inbuffer.text, sock.chunks);
        var n := sock.Recv(inbuffer);
        if n <= 0 {
          return if n == 0 then PeerClosed else RecvError, packages, inbuffer.text;
        }
        ghost var sent := sock.outgoing;
        var why, more := AnswerAll(sock, inbuffer);
        SentOn(Server(), base, sent, sock.outgoing, packages, more);
        packages := packages + more;
        if why != NeedsMore {
          return if why == Threw then StoiThrew else LoopSpins, packages, inbuffer.text;
        }
      }
    }

    /** `GetResponse`: the next package, received before it is decoded, and what it parses to; `resp`
        stays as it was if it does not parse, which goes unreported. */
    method GetResponse(client: Socket, respBuffer: ByteBuffer, resp: Response)
      returns (ok: bool, threw: bool, package: string, got: Response)
      requires client.Valid()
      modifies client`chunks, respBuffer
      ensures client.Valid()
      ensures ok ==> Receive(old(respBuffer.text), old(client.chunks)) == Got(package, respBuffer.text, client.chunks)
      ensures ok ==> got == (match json.parseResponse(package) case Some(r) => r case None => resp)
      ensures threw ==> !ok && Receive(old(respBuffer.text), old(client.chunks)) == Broke
      ensures !ok && !threw ==> Receive(old(respBuffer.text), old(client.chunks)) == Quit(respBuffer.text)
      ensures !ok ==> got == resp
      ensures ok ==> |client.chunks| < |old(client.chunks)|
      ensures forall j :: Sendable(j) && old(respBuffer.text + Concat(client.chunks)) < Encode(j) ==>
        !ok && !threw && respBuffer.text == old(respBuffer.text + Concat(client.chunks))
      ensures forall j :: Sendable(j) && old(respBuffer.text) < Encode(j) == old(respBuffer.text + Concat(client.chunks)) ==>
        ok && package == j && respBuffer.text == ""
    {
      ghost var b, chunks := respBuffer.text, client.chunks;
      forall j | Sendable(j) && b + Concat(chunks) < Encode(j) ensures Receive(b, chunks) == Quit(b + Concat(chunks)) {
        ReceivePart(j, b, chunks);
      }
      forall j | Sendable(j) && b < Encode(j) == b + Concat(chunks) ensures Receive(b, chunks) == Got(j, "", []) {
        ReceiveReply(j, b, chunks);
      }
      ReceiveConsumes(b, chunks);
      ok, threw, package, got := ReceiveResponse(client, respBuffer, resp);
    }

    /** Its loop. */
    method ReceiveResponse(client: Socket, respBuffer: ByteBuffer, resp: Response)
      returns (ok: bool, threw: bool, package: string, got: Response)
      requires client.Valid()
      modifies client`chunks, respBuffer
      ensures client.Valid()
      ensures ok ==> Receive(old(respBuffer.text), old(client.chunks)) == Got(package, respBuffer.text, client.chunks)
      ensures ok ==> got == (match json.parseResponse(package) case Some(r) => r case None => resp)
      ensures threw ==> !ok && Receive(old(respBuffer.text), old(client.chunks)) == Broke
      ensures !ok && !threw ==> Receive(old(respBuffer.text), old(client.chunks)) == Quit(respBuffer.text)
      ensures !ok ==> got == resp
    {
      ok, threw, package, got := false, false, "", resp;
      while true
        invariant client.Valid() && !ok && !threw && got == resp
        invariant Receive(old(respBuffer.text), old(client.chunks)) == Receive(respBuffer.text, client.chunks)
        decreases |client.chunks|
      {
        var n := client.Recv(respBuffer);
        if n > 0 {
          ok, threw, package := Decode(respBuffer);
          if ok {
            var parsed := json.parseResponse(package);
            got := if parsed.Some? then parsed.value else resp;
          }
          if ok || threw {
            return;
          }
        } else {
          return;
        }
      }
    }

    /** `BuildRequestString`: what the server will take as this one request. */
    method BuildRequestString(x: Int32, y: Int32, oper: char) returns (sendStr: string)
      ensures sendStr == Encode(json.printRequest(Request(x, y, oper)))
      ensures Sendable(json.printRequest(Request(x, y, oper))) ==>
        Serve("", [sendStr]) == Drained([json.printRequest(Request(x, y, oper))], "", NeedsMore)
      ensures CarriesRequest(json, Request(x, y, oper)) ==>
        var taken := Serve("", [sendStr]).packages;
        |taken| == 1 && Server()(taken[0]) == Some(json.printResponse(compute(Request(x, y, oper))))
    {
      var req := Request(x, y, oper);
      var jsonStr := json.printRequest(req);
      sendStr := Encode(jsonStr);
      if Sendable(jsonStr) {
        ServedAlone(jsonStr);
      }
    }
  }

  /** One encoded payload that arrives in one piece is extracted as it was. */
  lemma ServedAlone(payload: string)
    requires Sendable(payload)
    ensures Serve("", [Encode(payload)]) == Drained([payload], "", NeedsMore)
  {
    EmptyIsTail();
    assert Concat([Encode(payload)]) == Encode(payload) == Frames([payload]) + "" by {
      assert [Encode(payload)][1..] == [] && [payload][1..] == [];
    }
    ChunkingIndependence([payload], "", "", [Encode(payload)]);
  }
}
