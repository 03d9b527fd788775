/** The receive loops over a byte stream that arrives in chunks: what the server extracts, and what
    the client gets. */
module Stream {
  import opened Wire

  /** `Recv` appends its chunk as a C string: a NUL ends it. */
  function CString(chunk: string): string {
    if chunk == "" || chunk[0] == '\0' then "" else [chunk[0]] + CString(chunk[1..])
  }

  function Concat(chunks: seq<string>): string {
    if chunks == [] then "" else chunks[0] + Concat(chunks[1..])
  }

  /** Payloads on the wire, one frame after the other. */
  function Frames(ps: seq<string>): string {
    if ps == [] then "" else Encode(ps[0]) + Frames(ps[1..])
  }

  predicate NoNul(s: string) { '\0' !in s }
  predicate Sendable(j: string) { Fits(j) && NoNul(j) }

  /** Why a loop stops extracting: it needs more bytes, `stoi` threw, or `Decode` succeeds without
      removing anything (which a negative length can bring about) and the loop never ends. */
  datatype Why = NeedsMore | Threw | Spins
  datatype Drained = Drained(packages: seq<string>, rest: string, why: Why)

  function Prepend(ps: seq<string>, d: Drained): Drained { Drained(ps + d.packages, d.rest, d.why) }

  lemma PrependTwice(ps: seq<string>, qs: seq<string>, d: Drained)
    ensures Prepend(ps, Prepend(qs, d)) == Prepend(ps + qs, d)
    ensures Prepend([], d) == d
  {
    assert ps + (qs + d.packages) == (ps + qs) + d.packages;
    assert [] + d.packages == d.packages;
  }

  /** The loop `while (Decode(inbuffer, &package))`. */
  function Drain(b: string): Drained
    decreases |b|
  {
    match Decode(b)
    case Incomplete => Drained([], b, NeedsMore)
    case Throws => Drained([], b, Threw)
    case Frame(p, r) =>
      if |r| < |b| then Prepend([p], Drain(r)) else Drained([p], r, Spins)
  }

  /** `GetRequest` over all chunks up to the end of the stream. */
  function Serve(b: string, chunks: seq<string>): Drained
    decreases |chunks|
  {
    if chunks == [] then Drained([], b, NeedsMore)
    else
      var d := Drain(b + CString(chunks[0]));
      if d.why != NeedsMore then d else Prepend(d.packages, Serve(d.rest, chunks[1..]))
  }

  datatype Reply = Got(package: string, rest: string, left: seq<string>) | Quit(rest: string) | Broke

  /** `GetResponse`: receive first, then try to decode one package. */
  function Receive(b: string, chunks: seq<string>): Reply
    decreases |chunks|
  {
    if chunks == [] then Quit(b)
    else
      var b' := b + CString(chunks[0]);
      match Decode(b')
      case Incomplete => Receive(b', chunks[1..])
      case Throws => Broke
      case Frame(p, r) => Got(p, r, chunks[1..])
  }

  // ---- proper parts of frames ----

  /** `t` is the beginning of some frame, without its end. */
  ghost predicate Tail(t: string) { exists q :: Fits(q) && t < Encode(q) }

  lemma {:induction false} CStringWhole(s: string)
    requires NoNul(s)
    ensures CString(s) == s
  {
    if s != "" {
      CStringWhole(s[1..]);
      assert s == [s[0]] + s[1..];
    }
  }

  /** What a read appends: the bytes received before the first NUL. */
  lemma {:induction false} CStringIs(s: string)
    ensures CString(s) <= s && NoNul(CString(s)) && (CString(s) == s || s[|CString(s)|] == '\0')
  {
    if s != "" && s[0] != '\0' {
      CStringIs(s[1..]);
      assert s == [s[0]] + s[1..];
    }
  }

  lemma DrainOne(p: string, rest: string)
    requires Fits(p) && |Encode(p)| + |rest| <= MAX_SIZE
    ensures Drain(Encode(p) + rest) == Prepend([p], Drain(rest))
  {
    DecodeOfEncode(p, rest);
    EncodeShape(p);
  }

  lemma DrainTail(t: string)
    requires Tail(t)
    ensures Drain(t) == Drained([], t, NeedsMore)
  {
    var q :| Fits(q) && t < Encode(q);
    DecodeOfPart(q, t);
  }

  lemma Reassociate(e: string, f: string, t: string)
    ensures (e + f) + t == e + (f + t) && |e| + |f + t| == |e + f| + |t|
    ensures "" + t == t
  {
  }

  /** Whatever follows them, whole frames at the front are extracted first. */
  lemma {:induction false} DrainThen(ps: seq<string>, rest: string)
    requires (forall p :: p in ps ==> Fits(p)) && |Frames(ps)| + |rest| <= MAX_SIZE
    ensures Drain(Frames(ps) + rest) == Prepend(ps, Drain(rest))
  {
    PrependTwice([], [], Drain(rest));
    if ps == [] {
      Reassociate("", "", rest);
    } else {
      Reassociate(Encode(ps[0]), Frames(ps[1..]), rest);
      DrainThen(ps[1..], rest);
      DrainOne(ps[0], Frames(ps[1..]) + rest);
      PrependTwice([ps[0]], ps[1..], Drain(rest));
      assert [ps[0]] + ps[1..] == ps;
    }
  }

  lemma DrainFrames(ps: seq<string>, tail: string)
    requires forall p :: p in ps ==> Fits(p)
    requires Tail(tail) && |Frames(ps)| + |tail| <= MAX_SIZE
    ensures Drain(Frames(ps) + tail) == Drained(ps, tail, NeedsMore)
  {
    DrainThen(ps, tail);
    DrainTail(tail);
    assert ps + [] == ps;
  }

  /** A header that is not a number ends the extraction with an exception, after the frames before it;
      one that makes `Decode` stand still makes the loop spin. */
  lemma DrainBroken(ps: seq<string>, bad: string)
    requires (forall p :: p in ps ==> Fits(p)) && |Frames(ps)| + |bad| <= MAX_SIZE
    ensures Decode(bad).Throws? ==> Drain(Frames(ps) + bad) == Drained(ps, bad, Threw)
    ensures Decode(bad).Frame? && Decode(bad).rest == bad ==>
      Drain(Frames(ps) + bad) == Drained(ps + [Decode(bad).package], bad, Spins)
  {
    DrainThen(ps, bad);
    assert ps + [] == ps;
  }

  lemma FramesOneMore(ps: seq<string>, k: nat)
    requires k < |ps|
    ensures Frames(ps[..k + 1]) == Encode(ps[0]) + Frames(ps[1..][..k])
    ensures ps[k + 1..] == ps[1..][k..]
  {
    assert ps[..k + 1][1..] == ps[1..][..k] && ps[..k + 1][0] == ps[0];
  }

  /** Wherever a stream of frames is cut, the first part is whole frames and a proper part of one. */
  lemma {:induction false} CutAnywhere(ps: seq<string>, tail: string, b: string, more: string) returns (k: nat, t: string)
    requires forall p :: p in ps ==> Fits(p)
    requires Tail(tail) && b + more == Frames(ps) + tail
    ensures k <= |ps| && b == Frames(ps[..k]) + t && Tail(t)
    ensures t + more == Frames(ps[k..]) + tail
  {
    k, t := 0, b;
    if ps == [] {
      TailOfTail(tail, b, more);
    } else {
      var e, rest := Encode(ps[0]), Frames(ps[1..]) + tail;
      Reassociate(e, Frames(ps[1..]), tail);
      if |b| < |e| {
        PartOfFirst(b, more, e, rest);
        assert Fits(ps[0]) && ps[0..] == ps;
      } else {
        Align(b, more, e, rest);
        k, t := CutAnywhere(ps[1..], tail, b[|e|..], more);
        FramesOneMore(ps, k);
        Reassociate(e, Frames(ps[1..][..k]), t);
        k := k + 1;
      }
    }
  }

  lemma PartOfFirst(b: string, more: string, e: string, rest: string)
    requires b + more == e + rest && |b| < |e|
    ensures b < e
  {
    assert b == (b + more)[..|b|] == (e + rest)[..|b|];
  }

  lemma Align(b: string, more: string, e: string, rest: string)
    requires b + more == e + rest && |b| >= |e|
    ensures b == e + b[|e|..] && b[|e|..] + more == rest
  {
    assert b[..|e|] == (b + more)[..|e|] == e;
    assert (b + more)[|e|..] == b[|e|..] + more;
    assert (e + rest)[|e|..] == rest;
  }

  lemma TailOfTail(tail: string, b: string, more: string)
    requires Tail(tail) && b + more == Frames([]) + tail
    ensures Tail(b) && b + more == tail
  {
    var q :| Fits(q) && tail < Encode(q);
    assert b + more == tail;
    assert b < Encode(q);
  }

  /** One read, whatever it brings: the frames it completes are extracted, the rest kept. */
  lemma OneRead(ps: seq<string>, tail: string, b: string, chunk: string, more: string) returns (k: nat, t: string)
    requires forall p :: p in ps ==> Fits(p)
    requires Tail(tail) && |Frames(ps)| + |tail| <= MAX_SIZE
    requires (b + chunk) + more == Frames(ps) + tail && NoNul(chunk)
    ensures k <= |ps| && Drain(b + CString(chunk)) == Drained(ps[..k], t, NeedsMore)
    ensures Tail(t) && t + more == Frames(ps[k..]) + tail && |Frames(ps[k..])| + |tail| <= MAX_SIZE
  {
    CStringWhole(chunk);
    k, t := CutAnywhere(ps, tail, b + chunk, more);
    FramesSplit(ps, k);
    DrainFrames(ps[..k], t);
  }

  lemma ConcatNoNul(chunks: seq<string>)
    requires chunks != [] && NoNul(Concat(chunks))
    ensures NoNul(chunks[0]) && NoNul(Concat(chunks[1..]))
  {
    assert forall c :: c in chunks[0] || c in Concat(chunks[1..]) ==> c in Concat(chunks);
  }

  lemma {:induction false} ServeFrames(ps: seq<string>, tail: string, b: string, chunks: seq<string>)
    requires forall p :: p in ps ==> Fits(p)
    requires Tail(tail) && |Frames(ps)| + |tail| <= MAX_SIZE
    requires b + Concat(chunks) == Frames(ps) + tail && NoNul(Concat(chunks)) && Tail(b)
    ensures Serve(b, chunks) == Drained(ps, tail, NeedsMore)
    decreases |chunks|
  {
    if chunks == [] {
      NothingToRead(ps, tail, b);
    } else {
      var more := Concat(chunks[1..]);
      ConcatNoNul(chunks);
      Reassociate(b, chunks[0], more);
      var k, t := OneRead(ps, tail, b, chunks[0], more);
      ServeFrames(ps[k..], tail, t, chunks[1..]);
      assert ps[..k] + ps[k..] == ps;
      assert Serve(b, chunks) == Prepend(ps[..k], Serve(t, chunks[1..]));
    }
  }

  /** Reading two lists of chunks one after the other: the second is read if the first left the loop
      running, from what it left in the buffer. */
  lemma {:induction false} ServeInTwo(b: string, x: seq<string>, y: seq<string>)
    ensures Serve(b, x + y) == var d := Serve(b, x);
      if d.why == NeedsMore then Prepend(d.packages, Serve(d.rest, y)) else d
    decreases |x|
  {
    PrependTwice([], [], Serve(b, y));
    if x == [] {
      assert x + y == y;
    } else {
      var d := Drain(b + CString(x[0]));
      assert (x + y)[0] == x[0] && (x + y)[1..] == x[1..] + y;
      if d.why == NeedsMore {
        ServeInTwo(d.rest, x[1..], y);
        var e := Serve(d.rest, x[1..]);
        PrependTwice(d.packages, e.packages, Serve(e.rest, y));
      }
    }
  }

  /** A single read is drained. */
  lemma ServeOne(b: string, chunk: string)
    ensures Serve(b, [chunk]) == Drain(b + CString(chunk))
  {
    var d := Drain(b + CString(chunk));
    assert [chunk][1..] == [] && d.packages + [] == d.packages;
  }

  lemma NothingToRead(ps: seq<string>, tail: string, b: string)
    requires forall p :: p in ps ==> Fits(p)
    requires Tail(tail) && |Frames(ps)| + |tail| <= MAX_SIZE
    requires b + "" == Frames(ps) + tail && Tail(b)
    ensures ps == [] && b == tail
  {
    assert b == b + "";
    DrainFrames(ps, tail);
    DrainTail(b);
  }

  lemma {:induction false} FramesSplit(ps: seq<string>, k: nat)
    requires k <= |ps|
    ensures Frames(ps) == Frames(ps[..k]) + Frames(ps[k..])
  {
    if k > 0 {
      FramesSplit(ps[1..], k - 1);
      assert ps[..k] == [ps[0]] + ps[1..][..k - 1] && ps[1..][k - 1..] == ps[k..];
    } else {
      assert ps[..0] == [] && ps[0..] == ps;
    }
  }

  lemma {:induction false} FramesNoNul(ps: seq<string>)
    requires forall p :: p in ps ==> NoNul(p)
    ensures NoNul(Frames(ps))
  {
    if ps != [] {
      FramesNoNul(ps[1..]);
      EncodeNoNul(ps[0]);
    }
  }

  lemma EncodeNoNul(p: string)
    requires NoNul(p)
    ensures NoNul(Encode(p))
  {
    DecimalDigits(|p|);
  }

  /** Chunking independence: however the bytes of a list of payloads, and of the beginning of one more,
      are split into reads, the server extracts exactly that list, in order, and keeps exactly that
      beginning; payloads may contain the separator. */
  lemma ChunkingIndependence(ps: seq<string>, q: string, tail: string, chunks: seq<string>)
    requires (forall p :: p in ps ==> Sendable(p)) && Sendable(q) && tail < Encode(q)
    requires Concat(chunks) == Frames(ps) + tail && |Concat(chunks)| <= MAX_SIZE
    ensures Serve("", chunks) == Drained(ps, tail, NeedsMore)
  {
    FramesNoNul(ps);
    EncodeNoNul(q);
    assert NoNul(tail) by {
      assert forall c :: c in tail ==> c in Encode(q);
    }
    assert "" < Encode(q);
    ServeFrames(ps, tail, "", chunks);
  }

  /** Hence no two ways of splitting the same stream can be told apart. */
  lemma AllSplitsAgree(ps: seq<string>, chunks: seq<string>, others: seq<string>)
    requires forall p :: p in ps ==> Sendable(p)
    requires Concat(chunks) == Frames(ps) == Concat(others) && |Frames(ps)| <= MAX_SIZE
    ensures Serve("", chunks) == Serve("", others) == Drained(ps, "", NeedsMore)
  {
    EmptyIsTail();
    ChunkingIndependence(ps, "", "", chunks);
    ChunkingIndependence(ps, "", "", others);
  }

  lemma EmptyIsTail()
    ensures Sendable("") && "" < Encode("") && Tail("")
  {
    assert Encode("") == "0" + SEP + SEP;
  }

  lemma DecodeWhole(j: string, b: string)
    requires Fits(j) && b == Encode(j)
    ensures Decode(b) == Frame(j, "")
  {
    DecodeOfEncode(j, "");
    assert Encode(j) + "" == b;
  }

  lemma PrefixOf(b: string, more: string, e: string)
    requires b + more == e && |b| < |e|
    ensures b < e
  {
  }

  lemma PrefixNoNul(b: string, chunk: string, more: string, e: string)
    requires (b + chunk) + more == e && NoNul(e)
    ensures NoNul(chunk)
  {
    assert forall c :: c in chunk ==> c in e;
  }

  /** The client gets the one reply that is coming, from an empty buffer and however it is split, and
      leaves an empty buffer behind. */
  lemma {:induction false} ReceiveReply(j: string, b: string, chunks: seq<string>)
    requires Sendable(j) && b < Encode(j) && b + Concat(chunks) == Encode(j)
    requires forall c :: c in chunks ==> c != ""
    ensures Receive(b, chunks) == Got(j, "", [])
    decreases |chunks|
  {
    var e := Encode(j);
    EncodeNoNul(j);
    assert chunks != [];
    var b', more := b + chunks[0], Concat(chunks[1..]);
    Reassociate(b, chunks[0], more);
    PrefixNoNul(b, chunks[0], more, e);
    CStringWhole(chunks[0]);
    assert forall c :: c in chunks[1..] ==> c in chunks;
    if |b'| < |e| {
      PrefixOf(b', more, e);
      DecodeOfPart(j, b');
      ReceiveReply(j, b', chunks[1..]);
    } else {
      assert b' == e && more == "";
      DecodeWhole(j, b');
      NothingLeft(chunks[1..]);
    }
  }

  // ---- the client, whatever it receives ----

  /** What a list of reads appends to the buffer. */
  function Text(chunks: seq<string>): string {
    if chunks == [] then "" else CString(chunks[0]) + Text(chunks[1..])
  }

  lemma {:induction false} TextOneMore(b: string, chunks: seq<string>, k: nat)
    requires k < |chunks|
    ensures b + Text(chunks[..k + 1]) == (b + Text(chunks[..k])) + CString(chunks[k])
    decreases k
  {
    if k == 0 {
      assert chunks[..1][1..] == [] && b + "" == b;
    } else {
      var b' := b + CString(chunks[0]);
      TextOneMore(b', chunks[1..], k - 1);
      assert chunks[..k + 1][1..] == chunks[1..][..k] && chunks[..k][1..] == chunks[1..][..k - 1];
      Reassociate(b, CString(chunks[0]), Text(chunks[1..][..k]));
      Reassociate(b, CString(chunks[0]), Text(chunks[1..][..k - 1]));
    }
  }

  /** After the first `k` reads no whole package has arrived. */
  predicate StillShort(b: string, chunks: seq<string>, k: nat)
    requires k <= |chunks|
  {
    Decode(b + Text(chunks[..k])).Incomplete?
  }

  lemma {:induction false} ReceiveWaits(b: string, chunks: seq<string>, k: nat)
    requires k <= |chunks| && forall i :: 1 <= i <= k ==> StillShort(b, chunks, i)
    ensures Receive(b, chunks) == Receive(b + Text(chunks[..k]), chunks[k..])
  {
    if k == 0 {
      assert chunks[..0] == [] && b + "" == b && chunks[0..] == chunks;
    } else {
      ReceiveWaits(b, chunks, k - 1);
      TextOneMore(b, chunks, k - 1);
      assert StillShort(b, chunks, k) && chunks[k - 1..][1..] == chunks[k..];
    }
  }

  lemma ReceiveDecides(b: string, chunks: seq<string>, k: nat)
    requires 1 <= k <= |chunks| && forall i :: 1 <= i < k ==> StillShort(b, chunks, i)
    ensures match Decode(b + Text(chunks[..k]))
            case Incomplete => true
            case Throws => Receive(b, chunks) == Broke
            case Frame(p, r) => Receive(b, chunks) == Got(p, r, chunks[k..])
  {
    ReceiveWaits(b, chunks, k - 1);
    TextOneMore(b, chunks, k - 1);
    assert chunks[k - 1..][1..] == chunks[k..];
  }

  lemma {:induction false} FirstDecided(b: string, chunks: seq<string>, k: nat) returns (f: nat)
    requires 1 <= k <= |chunks| && !StillShort(b, chunks, k)
    ensures 1 <= f <= k && !StillShort(b, chunks, f) && forall i :: 1 <= i < f ==> StillShort(b, chunks, i)
  {
    if forall i :: 1 <= i < k ==> StillShort(b, chunks, i) {
      f := k;
    } else {
      var i :| 1 <= i < k && !StillShort(b, chunks, i);
      f := FirstDecided(b, chunks, i);
    }
  }

  /** Exactly when the client gets a package, breaks off, or finds the server gone: it decides by the
      first read after which `Decode` does not ask for more, and never before the first read. */
  lemma ReceiveExactly(b: string, chunks: seq<string>)
    ensures Receive(b, chunks).Quit? <==> forall k :: 1 <= k <= |chunks| ==> StillShort(b, chunks, k)
    ensures Receive(b, chunks).Quit? ==> Receive(b, chunks).rest == b + Text(chunks)
    ensures forall k :: 1 <= k <= |chunks| && (forall i :: 1 <= i < k ==> StillShort(b, chunks, i)) ==>
      match Decode(b + Text(chunks[..k]))
      case Incomplete => true
      case Throws => Receive(b, chunks) == Broke
      case Frame(p, r) => Receive(b, chunks) == Got(p, r, chunks[k..])
  {
    forall k | 1 <= k <= |chunks| && (forall i :: 1 <= i < k ==> StillShort(b, chunks, i))
      ensures match Decode(b + Text(chunks[..k]))
              case Incomplete => true
              case Throws => Receive(b, chunks) == Broke
              case Frame(p, r) => Receive(b, chunks) == Got(p, r, chunks[k..])
    {
      ReceiveDecides(b, chunks, k);
    }
    if forall k :: 1 <= k <= |chunks| ==> StillShort(b, chunks, k) {
      ReceiveWaits(b, chunks, |chunks|);
      assert chunks[..|chunks|] == chunks && chunks[|chunks|..] == [];
    } else {
      var k :| 1 <= k <= |chunks| && !StillShort(b, chunks, k);
      var f := FirstDecided(b, chunks, k);
      ReceiveDecides(b, chunks, f);
    }
  }

  lemma {:induction false} ReceiveConsumes(b: string, chunks: seq<string>)
    ensures Receive(b, chunks).Got? ==> |Receive(b, chunks).left| < |chunks|
    decreases |chunks|
  {
    if chunks != [] {
      ReceiveConsumes(b + CString(chunks[0]), chunks[1..]);
    }
  }

  /** If the server closes before a whole frame has arrived, the client finds it gone and keeps what has. */
  lemma {:induction false} ReceivePart(j: string, b: string, chunks: seq<string>)
    requires Sendable(j) && b + Concat(chunks) < Encode(j)
    ensures Receive(b, chunks) == Quit(b + Concat(chunks))
    decreases |chunks|
  {
    if chunks == [] {
      assert b + "" == b;
    } else {
      var b', more := b + chunks[0], Concat(chunks[1..]);
      EncodeNoNul(j);
      Reassociate(b, chunks[0], more);
      assert forall c :: c in chunks[0] ==> c in b + Concat(chunks);
      assert forall c :: c in b + Concat(chunks) ==> c in Encode(j);
      CStringWhole(chunks[0]);
      assert b' < Encode(j);
      DecodeOfPart(j, b');
      ReceivePart(j, b', chunks[1..]);
    }
  }

  lemma NothingLeft(chunks: seq<string>)
    requires forall c :: c in chunks ==> c != ""
    ensures chunks == [] || Concat(chunks) != ""
  {
    if chunks != [] {
      assert chunks[0] in chunks;
      assert Concat(chunks)[0] == chunks[0][0];
    }
  }
}
