/** The chat router: a vector of online users that has to behave as a set, over whole histories of
    messages. Calls are serialised by the router's mutex. */
module Routes {
  import opened Tally
  import opened Wire

  datatype InetAddr = InetAddr(ip: string, port: nat) {
    function StringAddr(): string { ip + ":" + Decimal(port) }
  }

  datatype Message = Message(peer: InetAddr, text: string)
  datatype Datagram = Datagram(to: InetAddr, text: string)

  const QUIT: string := "quit"

  // ---- who is online, defined on the history alone ----

  /** The peer's latest message exists and was not "quit". */
  ghost predicate Present(h: seq<Message>, p: InetAddr) {
    exists i :: 0 <= i < |h| && h[i].peer == p && h[i].text != QUIT && Last(h, i)
  }

  /** No later message comes from the same peer. */
  predicate Last(h: seq<Message>, i: nat)
    requires i < |h|
  {
    forall j :: i < j < |h| ==> h[j].peer != h[i].peer
  }

  /** When the peer came online, if it is online. */
  function Since(h: seq<Message>, p: InetAddr): Option<nat> {
    if h == [] then None
    else
      var n := |h| - 1;
      var before := Since(h[..n], p);
      if h[n].peer != p then before
      else if h[n].text == QUIT then None
      else if before == None then Some(n)
      else before
  }

  /** The peer was offline before message `i`, which brought it online, and has not quit since. */
  ghost predicate CameOnline(h: seq<Message>, p: InetAddr, i: nat) {
    && i < |h| && h[i].peer == p
    && (forall j :: i <= j < |h| && h[j].peer == p ==> h[j].text != QUIT)
    && (forall j :: 0 <= j < i && h[j].peer == p && LastBefore(h, j, i) ==> h[j].text == QUIT)
  }

  /** Between messages `j` and `i` the peer of `j` is silent. */
  predicate LastBefore(h: seq<Message>, j: nat, i: nat)
    requires j < i <= |h|
  {
    forall k :: j < k < i ==> h[k].peer != h[j].peer
  }

  lemma {:induction false} SinceSound(h: seq<Message>, p: InetAddr)
    ensures Since(h, p).Some? ==> CameOnline(h, p, Since(h, p).value)
    ensures Since(h, p) == None ==> forall j :: 0 <= j < |h| && h[j].peer == p && Last(h, j) ==> h[j].text == QUIT
  {
    if h != [] {
      var n := |h| - 1;
      var g := h[..n];
      SinceSound(g, p);
      if Since(g, p).Some? {
        var i := Since(g, p).value;
        assert forall j :: 0 <= j < i && LastBefore(h, j, i) ==> LastBefore(g, j, i);
      } else {
        assert forall j :: 0 <= j < n && h[j].peer == p && LastBefore(h, j, n) ==> Last(g, j);
        assert h[n].peer != p ==> forall j :: 0 <= j < n && Last(h, j) ==> Last(g, j);
      }
    }
  }

  /** Being online means that one's latest message was not "quit". */
  lemma SinceIsPresence(h: seq<Message>, p: InetAddr)
    ensures Since(h, p).Some? <==> Present(h, p)
  {
    SinceSound(h, p);
    if Since(h, p).Some? {
      var i := LatestOf(h, p, Since(h, p).value);
    }
  }

  lemma {:induction false} LatestOf(h: seq<Message>, p: InetAddr, i: nat) returns (l: nat)
    requires i < |h| && h[i].peer == p
    ensures i <= l < |h| && h[l].peer == p && Last(h, l)
    decreases |h| - i
  {
    if Last(h, i) {
      l := i;
    } else {
      var j :| i < j < |h| && h[j].peer == h[i].peer;
      l := LatestOf(h, p, j);
    }
  }

  // ---- the vector ----

  ghost predicate NoDup<T>(s: seq<T>) { forall i, j :: 0 <= i < j < |s| ==> s[i] != s[j] }

  function RemoveFirst(s: seq<InetAddr>, x: InetAddr): seq<InetAddr> {
    if s == [] then [] else if s[0] == x then s[1..] else [s[0]] + RemoveFirst(s[1..], x)
  }

  lemma {:induction false} RemoveAt(s: seq<InetAddr>, x: InetAddr, k: nat)
    requires k < |s| && s[k] == x && x !in s[..k]
    ensures RemoveFirst(s, x) == s[..k] + s[k + 1..]
  {
    if k > 0 {
      assert s[0] == s[..k][0] && s[1..][..k - 1] == s[..k][1..];
      RemoveAt(s[1..], x, k - 1);
      assert s[1..][k..] == s[k + 1..];
    }
  }

  lemma {:induction false} RemoveNone(s: seq<InetAddr>, x: InetAddr)
    requires x !in s
    ensures RemoveFirst(s, x) == s
  {
    if s != [] {
      RemoveNone(s[1..], x);
    }
  }

  /** Erasing the first match alone erases the peer, because it occurs once; the others keep their order. */
  lemma RemoveOnly(s: seq<InetAddr>, x: InetAddr, k: nat)
    requires NoDup(s) && k < |s| && s[k] == x
    ensures RemoveFirst(s, x) == s[..k] + s[k + 1..]
    ensures forall p :: p in RemoveFirst(s, x) <==> p in s && p != x
  {
    RemoveAt(s, x, k);
    forall p ensures p in s[..k] + s[k + 1..] <==> p in s && p != x {
      assert s == s[..k] + [x] + s[k + 1..];
    }
  }

  /** The vector holds every online peer once, in the order in which they came online. */
  ghost predicate Tracks(users: seq<InetAddr>, h: seq<Message>) {
    && (forall p :: p in users <==> Since(h, p).Some?)
    && (forall a, b :: 0 <= a < b < |users| ==> EarlierOnline(h, users[a], users[b]))
  }

  ghost predicate EarlierOnline(h: seq<Message>, p: InetAddr, q: InetAddr) {
    Since(h, p).Some? && Since(h, q).Some? && Since(h, p).value < Since(h, q).value
  }

  lemma TracksOnce(users: seq<InetAddr>, h: seq<Message>)
    requires Tracks(users, h)
    ensures NoDup(users)
  {
  }

  lemma EmptyIffNone(s: seq<InetAddr>)
    ensures s == [] <==> forall p :: p !in s
  {
    if s != [] {
      assert s[0] in s;
    }
  }

  /** There is only one such vector. */
  lemma {:induction false} TracksUnique(users: seq<InetAddr>, others: seq<InetAddr>, h: seq<Message>)
    requires forall a, b :: 0 <= a < b < |users| ==> EarlierOnline(h, users[a], users[b])
    requires forall a, b :: 0 <= a < b < |others| ==> EarlierOnline(h, others[a], others[b])
    requires forall p :: p in users <==> p in others
    ensures users == others
  {
    if users == [] {
      EmptyIffNone(others);
    } else {
      assert users[0] in others && others != [] && others[0] in users;
      assert users[0] == others[0];
      forall p ensures p in users[1..] <==> p in others[1..] {
        assert p in users[1..] <==> p in users && p != users[0];
        assert p in others[1..] <==> p in others && p != others[0];
      }
      TracksUnique(users[1..], others[1..], h);
    }
  }

  function Joined(users: seq<InetAddr>, p: InetAddr): seq<InetAddr> {
    if p in users then users else users + [p]
  }

  lemma SinceNext(h: seq<Message>, m: Message, p: InetAddr)
    ensures Since(h + [m], p) ==
      if m.peer != p then Since(h, p) else if m.text == QUIT then None
      else if Since(h, p) == None then Some(|h|) else Since(h, p)
  {
    assert (h + [m])[..|h|] == h;
  }

  lemma SinceBefore(h: seq<Message>, p: InetAddr)
    ensures Since(h, p).Some? ==> Since(h, p).value < |h|
  {
    SinceSound(h, p);
  }

  /** A message that is not "quit": its peer is online from now on, if it was not before. */
  lemma TracksJoin(users: seq<InetAddr>, h: seq<Message>, m: Message)
    requires Tracks(users, h) && m.text != QUIT
    ensures Tracks(Joined(users, m.peer), h + [m])
  {
    forall p ensures Since(h + [m], p) == (if p == m.peer && p !in users then Some(|h|) else Since(h, p)) {
      SinceNext(h, m, p);
    }
    forall p ensures Since(h, p).Some? ==> Since(h, p).value < |h| {
      SinceBefore(h, p);
    }
    var now := Joined(users, m.peer);
    forall a, b | 0 <= a < b < |now| ensures EarlierOnline(h + [m], now[a], now[b]) {
      assert a < |users| && (b < |users| ==> EarlierOnline(h, users[a], users[b]));
      assert users[a] in users;
    }
  }

  /** "quit": its peer is gone, whether it was online before or not. */
  lemma TracksQuit(users: seq<InetAddr>, h: seq<Message>, m: Message)
    requires Tracks(users, h) && m.text == QUIT
    ensures Tracks(RemoveFirst(Joined(users, m.peer), m.peer), h + [m])
  {
    forall p ensures Since(h + [m], p) == (if p == m.peer then None else Since(h, p)) {
      SinceNext(h, m, p);
    }
    var joined := Joined(users, m.peer);
    assert NoDup(joined) && m.peer in joined;
    var k: nat :| k < |joined| && joined[k] == m.peer;
    RemoveOnly(joined, m.peer, k);
    var now := RemoveFirst(joined, m.peer);
    assert now == users[..k] + users[if k < |users| then k + 1 else k..];
    OrderKept(users, k, h, h + [m], m.peer);
  }

  /** Leaving one user out keeps the others in order. */
  lemma OrderKept(users: seq<InetAddr>, k: nat, h: seq<Message>, h': seq<Message>, gone: InetAddr)
    requires k <= |users| && (k < |users| ==> users[k] == gone)
    requires forall a, b :: 0 <= a < b < |users| ==> EarlierOnline(h, users[a], users[b])
    requires (k == |users| ==> gone !in users) && forall p :: p != gone ==> Since(h', p) == Since(h, p)
    ensures var now := users[..k] + users[if k < |users| then k + 1 else k..];
      forall a, b :: 0 <= a < b < |now| ==> EarlierOnline(h', now[a], now[b])
  {
    var now := users[..k] + users[if k < |users| then k + 1 else k..];
    forall a, b | 0 <= a < b < |now| ensures EarlierOnline(h', now[a], now[b]) {
      var a', b' := if a < k then a else a + 1, if b < k then b else b + 1;
      assert now[a] == users[a'] && now[b] == users[b'] && EarlierOnline(h, users[a'], users[b']);
      assert a' != k && b' != k;
      assert k < |users| ==> (a' < k ==> EarlierOnline(h, users[a'], users[k])) && (k < a' ==> EarlierOnline(h, users[k], users[a']));
      assert k < |users| ==> (b' < k ==> EarlierOnline(h, users[b'], users[k])) && (k < b' ==> EarlierOnline(h, users[k], users[b']));
    }
  }

  lemma JoinedHas(users: seq<InetAddr>, peer: InetAddr)
    ensures forall p :: p in Joined(users, peer) <==> p in users || p == peer
  {
  }

  lemma Recipients(sent: seq<Datagram>, users: seq<InetAddr>)
    requires |sent| == |users| && forall i :: 0 <= i < |sent| ==> sent[i].to == users[i]
    ensures forall p :: (exists d :: d in sent && d.to == p) <==> p in users
  {
    forall p ensures (exists d :: d in sent && d.to == p) <==> p in users {
      if p in users {
        var i :| 0 <= i < |users| && users[i] == p;
        assert sent[i] in sent;
      }
    }
  }

  class Route {
    var onlineUsers: seq<InetAddr>
    ghost var history: seq<Message>

    ghost predicate Valid()
      reads this
    {
      Tracks(onlineUsers, history)
    }

    constructor ()
      ensures Valid() && history == [] && onlineUsers == []
    {
      onlineUsers, history := [], [];
    }

    method IsExist(user: InetAddr) returns (found: bool)
      ensures found <==> user in onlineUsers
    {
      for i := 0 to |onlineUsers|
        invariant user !in onlineUsers[..i]
      {
        if onlineUsers[i] == user {
          return true;
        }
      }
      return false;
    }

    method AddUser(user: InetAddr)
      modifies `onlineUsers
      ensures onlineUsers == old(onlineUsers) + [user]
    {
      onlineUsers := onlineUsers + [user];
    }

    method DeleteUser(user: InetAddr)
      modifies `onlineUsers
      ensures onlineUsers == RemoveFirst(old(onlineUsers), user)
    {
      for i := 0 to |onlineUsers|
        invariant onlineUsers == old(onlineUsers) && user !in onlineUsers[..i]
      {
        if onlineUsers[i] == user {
          RemoveAt(onlineUsers, user, i);
          onlineUsers := onlineUsers[..i] + onlineUsers[i + 1..];
          return;
        }
      }
      RemoveNone(onlineUsers, user);
    }

    /** One message: a first message logs its peer in; everybody online gets exactly one copy, the
        sender included; "quit" logs the peer out afterwards. */
    method MessageRoute(message: string, peer: InetAddr) returns (sent: seq<Datagram>)
      requires Valid()
      modifies this
      ensures Valid() && history == old(history) + [Message(peer, message)]
      ensures |sent| == |Joined(old(onlineUsers), peer)|
      ensures forall i :: 0 <= i < |sent| ==>
        sent[i] == Datagram(Joined(old(onlineUsers), peer)[i], peer.ip + ":" + Decimal(peer.port) + " # " + message)
      ensures forall p :: (exists d :: d in sent && d.to == p) <==> p in old(onlineUsers) || p == peer
      ensures message == "quit" <==> peer !in onlineUsers
      ensures forall p :: p in onlineUsers <==> Present(history, p)
      ensures NoDup(onlineUsers) && NoDup(sent)
    {
      TracksOnce(onlineUsers, history);
      var known := IsExist(peer);
      if !known {
        AddUser(peer);
      }
      var sendMessage := peer.StringAddr() + " # " + message;
      sent := [];
      for i := 0 to |onlineUsers|
        invariant onlineUsers == Joined(old(onlineUsers), peer) && history == old(history)
        invariant |sent| == i
        invariant forall k :: 0 <= k < i ==> sent[k] == Datagram(onlineUsers[k], sendMessage)
      {
        sent := sent + [Datagram(onlineUsers[i], sendMessage)];
      }
      Recipients(sent, onlineUsers);
      JoinedHas(old(onlineUsers), peer);
      if message == QUIT {
        DeleteUser(peer);
        TracksQuit(old(onlineUsers), history, Message(peer, message));
      } else {
        TracksJoin(old(onlineUsers), history, Message(peer, message));
      }
      history := history + [Message(peer, message)];
      TracksOnce(onlineUsers, history);
      forall p ensures p in onlineUsers <==> Present(history, p) {
        SinceIsPresence(history, p);
      }
    }
  }
}
