/** The interleaved transport: up to three peers share one event loop, each read and written in
    pieces of any size. */
module Transport {
  import opened Common
  import opened Base64
  import opened Framing

  const IO_CHUNK := 16384
  const MAX_PEERS := 3
  const MAX_FRAME := 65536

  /** `stream` is what the client will ever send, `taken` how much of it was read, and `budget` what
      the request being answered allows its response.  `received`, `replies` and `wire` are history:
      complete requests, queued responses, bytes sent. */
  datatype Peer = Peer(
    stream: Bytes, taken: nat,
    header: Bytes, body: Bytes, size: Option<nat>,
    output: Bytes, sent: nat, success: bool, closeAfter: bool,
    route: Option<nat>, budget: Option<nat>,
    received: seq<Bytes>, replies: seq<Bytes>, wire: Bytes)

  datatype Route = Route(retired: bool, peer: Option<nat>)

  /** History of one send: whether it carried success bytes, and whether its route was retired. */
  datatype Send = Send(success: bool, retired: bool)

  // ---------------------------------------------------------------- one peer

  function Taken(p: Peer): Bytes {
    if p.taken <= |p.stream| then p.stream[..p.taken] else p.stream
  }

  /** Collecting the next request: nothing but whole requests and this partial one was read. */
  predicate Collecting(p: Peer, max: nat) {
    && p.output == [] && p.sent == 0 && p.budget.None? && p.taken <= |p.stream|
    && Taken(p) == Joined(p.received) + p.header + p.body
    && |p.replies| == |p.received| && p.wire == Joined(p.replies)
    && match p.size
       case None => |p.header| < 4 && p.body == []
       case Some(n) => |p.header| == 4 && n == Size(p.header) && 1 <= n <= max && |p.body| < n
  }

  /** A whole request was read and nothing beyond it; its response is not queued yet. */
  predicate Due(p: Peer) {
    && p.taken <= |p.stream| && Taken(p) == Joined(p.received)
    && |p.replies| + 1 == |p.received| && p.wire == Joined(p.replies)
  }

  /** A header with an impossible size was read, and nothing beyond it. */
  predicate Spoiled(p: Peer, max: nat) {
    && p.taken <= |p.stream| && |p.header| == 4 && (Size(p.header) < 1 || Size(p.header) > max)
    && Taken(p) == Joined(p.received) + p.header
    && |p.replies| == |p.received| && p.wire == Joined(p.replies)
  }

  /** A response is on its way: earlier responses are out whole, this one as far as `sent`. */
  predicate Responding(p: Peer, max: nat) {
    && p.replies != [] && p.taken <= |p.stream| && !(p.success && p.closeAfter)
    && var front := p.replies[..|p.replies| - 1];
    && p.output == Frame(p.replies[|p.replies| - 1]) && p.sent < |p.output|
    && p.wire == Joined(front) + p.output[..p.sent]
    && (Due(p.(replies := front, wire := Joined(front)))
        || (p.closeAfter && Spoiled(p.(replies := front, wire := Joined(front)), max)))
  }

  predicate PeerOk(p: Peer, max: nat) {
    && Sendable(p.received, max) && Sendable(p.replies, max)
    && (Collecting(p, max) || Responding(p, max))
  }

  /** Whatever the pieces were: the requests read so far are the first ones the blocking reader
      yields on the same stream, and the rest of the stream is still there for the next. */
  lemma ReadsLikeTheBlockingReader(p: Peer, max: nat)
    requires PeerOk(p, max) && max < 4294967296
    ensures |Joined(p.received)| <= p.taken <= |p.stream|
    ensures Payloads(p.stream, max) == p.received + Payloads(p.stream[|Joined(p.received)|..], max)
    ensures Responding(p, max) && !p.closeAfter ==> p.taken == |Joined(p.received)|
  {
    var n := |Joined(p.received)|;
    assert Taken(p)[..n] == Joined(p.received);
    assert p.stream[..n] == Joined(p.received);
    assert p.stream == Joined(p.received) + p.stream[n..];
    JoinedRoundTrip(p.received, p.stream[n..], max);
  }

  /** When the client has sent everything and the peer waits for more, the requests read are all
      that the blocking reader yields. */
  lemma NothingIsMissed(p: Peer, max: nat)
    requires PeerOk(p, max) && max < 4294967296 && p.output == [] && p.taken == |p.stream|
    ensures p.received == Payloads(p.stream, max)
  {
    hide Header, Size, Joined, Sendable, Parse;
    ReadsLikeTheBlockingReader(p, max);
    assert p.stream == Joined(p.received) + p.header + p.body;
    assert p.stream[|Joined(p.received)|..] == p.header + p.body;
    PartialIsIncomplete(p, max);
  }

  lemma PartialIsIncomplete(p: Peer, max: nat)
    requires Collecting(p, max)
    ensures Parse(p.header + p.body, max) == Incomplete
  {
    hide Header, Size, Joined;
    assert |p.header| == 4 ==> (p.header + p.body)[..4] == p.header;
  }

  /** Responses leave whole and in order: the bytes sent are a prefix of the framed responses. */
  lemma SendsWholeFramesInOrder(p: Peer, max: nat)
    requires PeerOk(p, max)
    ensures p.wire <= Joined(p.replies)
    ensures p.output == [] ==> p.wire == Joined(p.replies) && |p.replies| == |p.received|
  {
    hide Frame, Spoiled;
    if p.output != [] {
      var front, last := p.replies[..|p.replies| - 1], p.replies[|p.replies| - 1];
      assert Joined(p.replies) == Joined(front) + Frame(last);
    }
  }

  function NewPeer(stream: Bytes): Peer {
    Peer(stream, 0, [], [], None, [], 0, false, false, None, None, [], [], [])
  }

  /** One more response queued. */
  function Queued(p: Peer, payload: Bytes, success: bool, closeAfter: bool): Peer {
    p.(output := Frame(payload), sent := 0, success := success, closeAfter := closeAfter,
       replies := p.replies + [payload])
  }

  lemma QueuedResponds(p: Peer, payload: Bytes, success: bool, closeAfter: bool, max: nat)
    requires Sendable(p.received, max) && Sendable(p.replies, max) && 1 <= |payload| <= max
    requires (Due(p) || (closeAfter && Spoiled(p, max))) && !(success && closeAfter)
    ensures PeerOk(Queued(p, payload, success, closeAfter), max)
  {
  }

  /** A piece of the next frame arrives. */
  function Fed(p: Peer, piece: Bytes): Peer {
    if p.size.None? then p.(taken := p.taken + |piece|, header := p.header + piece)
    else p.(taken := p.taken + |piece|, body := p.body + piece)
  }

  predicate IsNext(p: Peer, piece: Bytes) {
    p.taken + |piece| <= |p.stream| && piece == p.stream[p.taken..p.taken + |piece|]
  }

  function Wanted(p: Peer): int {
    if p.size.None? then 4 - |p.header| else p.size.value - |p.body|
  }

  lemma FedTaken(p: Peer, piece: Bytes, max: nat)
    requires Collecting(p, max) && IsNext(p, piece) && 1 <= |piece| <= Wanted(p)
    ensures Taken(Fed(p, piece)) == Joined(p.received) + Fed(p, piece).header + Fed(p, piece).body
    ensures p.size.None? ==> Fed(p, piece).body == []
  {
    assert p.stream[..p.taken + |piece|] == p.stream[..p.taken] + piece;
    Regroup(Joined(p.received), p.header, piece);
    Regroup(Joined(p.received) + p.header, p.body, piece);
    assert p.size.None? ==> Joined(p.received) + p.header + [] + piece == Joined(p.received) + (p.header + piece) + [];
  }

  /** The header is complete. */
  function Sized(p: Peer): Peer
    requires |p.header| == 4
  {
    p.(size := Some(Size(p.header)))
  }

  /** The body is complete: one more request. */
  function Completed(p: Peer): Peer {
    p.(received := p.received + [p.body])
  }

  lemma CompletedIsDue(p: Peer, max: nat)
    requires |p.header| == 4 && p.size == Some(Size(p.header)) && 1 <= Size(p.header) <= max
    requires |p.body| == Size(p.header)
    requires p.taken <= |p.stream| && Taken(p) == Joined(p.received) + p.header + p.body
    requires Sendable(p.received, max) && |p.replies| == |p.received| && p.wire == Joined(p.replies)
    ensures Due(Completed(p)) && Sendable(Completed(p).received, max)
  {
    hide Header, Size, Joined;
    JoinedSnoc(p.received, p.body);
    HeaderIsUnique(p.header, |p.body|);
    Regroup(Joined(p.received), p.header, p.body);
    assert Taken(Completed(p)) == Taken(p);
  }

  lemma HeaderIsUnique(header: Bytes, n: nat)
    requires |header| == 4 && Size(header) == n
    ensures Header(n) == header
  {
    var a, b, c, d := header[0] as int, header[1] as int, header[2] as int, header[3] as int;
    Shift(a * 65536 + b * 256 + c, d);
    Shift(a * 256 + b, c);
    Shift(a, b);
    assert n / 65536 == n / 256 / 256 && n / 16777216 == n / 256 / 256 / 256;
    hide Header, Size;
    HeaderDigits(n, a, b, c, d);
  }

  lemma Shift(high: nat, low: nat)
    requires low < 256
    ensures (high * 256 + low) / 256 == high && (high * 256 + low) % 256 == low
  {
  }

  lemma HeaderDigits(n: nat, a: Byte, b: Byte, c: Byte, d: Byte)
    requires n % 256 == d && n / 256 % 256 == c && n / 65536 % 256 == b && n / 16777216 % 256 == a
    ensures Header(n) == [a, b, c, d]
  {
  }

  /** More of the response is out. */
  function Pushed(p: Peer, n: nat): Peer
    requires p.sent + n <= |p.output|
  {
    p.(sent := p.sent + n, wire := p.wire + p.output[p.sent..p.sent + n])
  }

  /** The response is out whole: back to reading. */
  function Answered(p: Peer): Peer {
    p.(output := [], sent := 0, header := [], body := [], size := None, budget := None)
  }

  lemma SpoiledStays(before: Peer, after: Peer, max: nat)
    requires Taken(before) == Taken(after) && after == before.(sent := after.sent, output := after.output)
    ensures Spoiled(before, max) ==> Spoiled(after, max)
  {
  }

  lemma PushedWire(p: Peer, n: nat, max: nat)
    requires Responding(p, max) && p.sent + n <= |p.output|
    ensures p.replies != [] && Pushed(p, n).wire == Joined(p.replies[..|p.replies| - 1]) + p.output[..p.sent + n]
  {
    hide Joined, Frame, Spoiled, Due;
    assert p.output[..p.sent] + p.output[p.sent..p.sent + n] == p.output[..p.sent + n];
    Regroup(Joined(p.replies[..|p.replies| - 1]), p.output[..p.sent], p.output[p.sent..p.sent + n]);
  }

  /** A piece of a response leaves the rest of it, or all of it is out and the next request may come. */
  lemma PushedIsOk(p: Peer, n: nat, max: nat)
    requires PeerOk(p, max) && Responding(p, max) && 0 < n && p.sent + n <= |p.output|
    ensures p.sent + n < |p.output| ==> PeerOk(Pushed(p, n), max)
    ensures p.sent + n == |p.output| && !p.closeAfter ==> PeerOk(Answered(Pushed(p, n)), max)
  {
    hide Joined, Frame, Sendable, Spoiled;
    PushedWire(p, n, max);
    var q := Pushed(p, n);
    var front, last := p.replies[..|p.replies| - 1], p.replies[|p.replies| - 1];
    var before, back := p.(replies := front, wire := Joined(front)), q.(replies := front, wire := Joined(front));
    SpoiledStays(before, back, max);
    if p.sent + n == |p.output| && !p.closeAfter {
      FrontAndLast(p.replies);
      JoinedSnoc(front, last);
      assert p.output[..p.sent + n] == Frame(last);
      var done := Answered(q);
      assert Taken(done) == Joined(done.received) + [] + [];
    }
  }

  // ---------------------------------------------------------------- peers and routes together

  type Peers = map<nat, Peer>
  type Routes = seq<Route>

  predicate LinkedPeer(peers: Peers, routes: Routes, id: nat)
    requires id in peers
  {
    peers[id].route.Some? ==> peers[id].route.value < |routes| && routes[peers[id].route.value].peer == Some(id)
  }

  predicate LinkedRoute(peers: Peers, routes: Routes, r: nat)
    requires r < |routes|
  {
    routes[r].peer.Some? ==> routes[r].peer.value in peers && peers[routes[r].peer.value].route == Some(r)
  }

  /** A peer and its route point at each other. */
  predicate Linked(peers: Peers, routes: Routes) {
    && (forall id :: id in peers ==> LinkedPeer(peers, routes, id))
    && (forall r: nat :: r < |routes| ==> LinkedRoute(peers, routes, r))
  }

  predicate RetiredRoute(p: Peer, routes: Routes) {
    p.route.Some? && p.route.value < |routes| && routes[p.route.value].retired
  }

  /** A success response is pending only on a route, and the peer of a retired route has only its
      refusal left to receive. */
  predicate Live(p: Peer, routes: Routes) {
    && (p.output != [] && p.success ==> p.route.Some? && p.route.value < |routes|)
    && (RetiredRoute(p, routes) ==> p.output != [] && p.closeAfter && !p.success)
  }

  predicate AllOk(peers: Peers, routes: Routes, max: nat) {
    forall id :: id in peers ==> PeerOk(peers[id], max) && Live(peers[id], routes)
  }

  /** What one peer keeps while it is served. */
  predicate Moved(p: Peer, q: Peer) {
    && q.stream == p.stream && p.taken <= q.taken && p.received <= q.received && p.wire <= q.wire
    && (p.route.Some? ==> q.route == p.route)
  }

  predicate Onward(peers: Peers, routes: Routes, peers': Peers, routes': Routes) {
    && (forall id :: id in peers && id in peers' ==> Moved(peers[id], peers'[id]))
    && |routes'| == |routes| && forall r :: 0 <= r < |routes| && routes[r].retired ==> routes'[r].retired
  }

  function Unlinked(routes: Routes, id: nat): Routes {
    seq(|routes|, r requires 0 <= r < |routes| =>
      if routes[r].peer == Some(id) then routes[r].(peer := None) else routes[r])
  }

  /** A peer that keeps its route may change otherwise. */
  lemma ReplacingKeepsLinks(peers: Peers, routes: Routes, id: nat, p: Peer)
    requires Linked(peers, routes) && id in peers && p.route == peers[id].route && Moved(peers[id], p)
    ensures Linked(peers[id := p], routes) && |peers[id := p]| == |peers|
    ensures Onward(peers, routes, peers[id := p], routes)
  {
    hide PeerOk;
    var more := peers[id := p];
    forall k | k in more
      ensures LinkedPeer(more, routes, k)
    {
      assert LinkedPeer(peers, routes, k);
    }
    forall r: nat | r < |routes|
      ensures LinkedRoute(more, routes, r)
    {
      assert LinkedRoute(peers, routes, r);
    }
    assert more.Keys == peers.Keys;
  }

  /** Retiring is for good; only the retired route's own peer may have had a response pending. */
  lemma RetiringKeepsLinks(peers: Peers, routes: Routes, r: nat, id: nat, max: nat)
    requires Linked(peers, routes) && r < |routes| && id in peers && peers[id].route == Some(r)
    requires forall k :: k in peers && k != id ==> PeerOk(peers[k], max) && Live(peers[k], routes)
    ensures var after := routes[r := routes[r].(retired := true)];
            && Linked(peers, after) && Onward(peers, routes, peers, after)
            && (forall k :: k in peers && k != id ==> PeerOk(peers[k], max) && Live(peers[k], after))
  {
    hide PeerOk;
    var after := routes[r := routes[r].(retired := true)];
    forall k | k in peers
      ensures LinkedPeer(peers, after, k)
      ensures k != id ==> Live(peers[k], after)
    {
      assert LinkedPeer(peers, routes, k) && LinkedPeer(peers, routes, id);
    }
    forall q: nat | q < |after|
      ensures LinkedRoute(peers, after, q)
    {
      assert LinkedRoute(peers, routes, q);
    }
  }

  lemma LinkingKeepsLinks(peers: Peers, routes: Routes, r: nat, id: nat, p: Peer, max: nat)
    requires Linked(peers, routes) && r < |routes| && routes[r].peer.None?
    requires id in peers && peers[id].route.None? && p.route == Some(r) && Moved(peers[id], p)
    requires forall k :: k in peers && k != id ==> PeerOk(peers[k], max) && Live(peers[k], routes)
    ensures var after := routes[r := routes[r].(peer := Some(id))];
            && Linked(peers[id := p], after) && Onward(peers, routes, peers[id := p], after)
            && |peers[id := p]| == |peers|
            && (forall k :: k in peers && k != id ==> PeerOk(peers[k], max) && Live(peers[k], after))
  {
    hide PeerOk;
    var more, after := peers[id := p], routes[r := routes[r].(peer := Some(id))];
    forall k | k in more
      ensures LinkedPeer(more, after, k)
      ensures k != id ==> Live(peers[k], after)
    {
      assert LinkedPeer(peers, routes, k);
    }
    forall q: nat | q < |after|
      ensures LinkedRoute(more, after, q)
    {
      assert LinkedRoute(peers, routes, q);
    }
    assert more.Keys == peers.Keys;
  }

  /** What validation, the session and the clock answer while one event is handled. */
  datatype Env = Env(
    expired: bool, decodes: bool, wellFormed: bool, token: Option<nat>, session: bool,
    budget: Option<int>, statusOk: bool, response: Bytes, success: bool, statusAgain: bool, refusal: Bytes)

  /** The response queued last is no larger than a frame, than a response may be, and, where its request
      named a budget in range, than that. */
  predicate LastFits(p: Peer, asked: Option<int>, before: Peer, l: Limits) {
    before.budget.None? ==>
      && |p.replies| == |before.replies| + 1
      && var sent := |p.replies[|before.replies|]|;
      && sent <= l.frame && sent <= l.response
      && (asked.Some? && 0 <= asked.value <= l.response ==> sent <= asked.value)
  }

  /** The largest frame and the largest response. */
  datatype Limits = Limits(frame: nat, response: nat)

  /** How large a response may be that is queued under this budget. */
  function Room(l: Limits, budget: Option<nat>): nat {
    SmallerOf(l.frame, if budget.None? then l.response else budget.value)
  }

  /** What a request names as its budget counts when it is a number in range. */
  function Budgeted(p: Peer, env: Env, l: Limits): Peer {
    p.(budget := if env.budget.Some? && 0 <= env.budget.value <= l.response then Some(env.budget.value) else None)
  }

  // ---------------------------------------------------------------- what each event does

  datatype Net = Net(peers: Peers, routes: Routes)

  /** The peer is gone and its route is free for the next one. */
  function Dropped(n: Net, id: nat): Net {
    Net(n.peers - {id}, Unlinked(n.routes, id))
  }

  /** A response that fits is queued; one that does not closes the peer. */
  function Replied(n: Net, id: nat, p: Peer, payload: Bytes, success: bool, closeAfter: bool, l: Limits): Net {
    if 1 <= |payload| <= Room(l, p.budget) then Net(n.peers[id := Queued(p, payload, success, closeAfter)], n.routes)
    else Dropped(n, id)
  }

  function Retired(n: Net, r: nat): Net
    requires r < |n.routes|
  {
    Net(n.peers, n.routes[r := n.routes[r].(retired := true)])
  }

  /** The route is retired, and its peer gets the refusal as its last frame. */
  function Denied(n: Net, id: nat, p: Peer, refusal: Bytes, l: Limits): Net
    requires p.route.Some? && p.route.value < |n.routes|
  {
    Replied(Retired(n, p.route.value), id, p, refusal, false, true, l)
  }

  /** A first request: it reserves the live, free route of its token, or is refused or closed. */
  function Greeted(n: Net, id: nat, p: Peer, env: Env, l: Limits): Net {
    if !env.wellFormed || env.token.None? || env.token.value >= |n.routes| || n.routes[env.token.value].retired then
      Replied(n, id, p, env.refusal, false, true, l)
    else if n.routes[env.token.value].peer.Some? then Dropped(n, id)
    else
      var r, q := env.token.value, p.(route := env.token);
      var linked := Net(n.peers[id := q], n.routes[r := n.routes[r].(peer := Some(id))]);
      if env.statusOk && env.statusAgain then Replied(linked, id, q, env.response, env.success, false, l)
      else Denied(linked, id, q, env.refusal, l)
  }

  /** Authority is asked for before the response is built and again once it is known to fit. */
  function Answering(n: Net, id: nat, p: Peer, env: Env, l: Limits): Net
    requires p.route.Some? && p.route.value < |n.routes|
  {
    if !env.wellFormed || !env.session then Replied(n, id, p, env.refusal, false, true, l)
    else if !env.statusOk then Denied(n, id, p, env.refusal, l)
    else if |env.response| > Room(l, p.budget) then Dropped(n, id)
    else if !env.statusAgain then Denied(n, id, p, env.refusal, l)
    else Replied(n, id, p, env.response, env.success, false, l)
  }

  /** A whole request arrived. */
  function Served(n: Net, id: nat, p: Peer, env: Env, l: Limits): Net
    requires p.route.Some? ==> p.route.value < |n.routes|
  {
    if env.expired then Dropped(n, id)
    else if p.route.None? then Greeted(n, id, p, env, l)
    else Answering(n, id, Budgeted(p, env, l), env, l)
  }

  /** How much one `recv` or `send` of at most `limit` bytes moves. */
  function PieceSize(offered: nat, limit: nat, left: nat): (n: nat)
    requires limit > 0 && left > 0
    ensures 1 <= n <= limit && n <= left && n <= IO_CHUNK
    ensures 1 <= offered <= SmallerOf(SmallerOf(limit, IO_CHUNK), left) ==> n == offered
  {
    var most := SmallerOf(SmallerOf(limit, IO_CHUNK), left);
    if 1 <= offered <= most then offered else most
  }

  /** One piece was read: the frame goes on, or a bad header is refused, or a request is served. */
  function Arrived(n: Net, id: nat, p: Peer, fed: Peer, env: Env, l: Limits): Net
    requires fed.route.Some? ==> fed.route.value < |n.routes|
  {
    if p.size.None? && |fed.header| == 4 then
      if 1 <= Size(fed.header) <= l.frame then Net(n.peers[id := Sized(fed)], n.routes)
      else Replied(n, id, fed, env.refusal, false, true, l)
    else if p.size.Some? && |fed.body| == p.size.value then
      if env.decodes then Served(n, id, Completed(fed), env, l)
      else Replied(n, id, Completed(fed), env.refusal, false, true, l)
    else Net(n.peers[id := fed], n.routes)
  }

  /** `n` more bytes of the response are out. */
  function SentOn(net: Net, id: nat, p: Peer, n: nat): Net
    requires p.sent + n <= |p.output|
  {
    if p.sent + n < |p.output| then Net(net.peers[id := Pushed(p, n)], net.routes)
    else if p.closeAfter then Dropped(net, id)
    else Net(net.peers[id := Answered(Pushed(p, n))], net.routes)
  }

  /** Whatever answer a request gets, it fits. */
  lemma AnswersFit(n: Net, id: nat, p: Peer, env: Env, l: Limits)
    requires p.route.Some? ==> p.route.value < |n.routes|
    requires id in n.peers
    ensures id in Served(n, id, p, env, l).peers ==>
              LastFits(Served(n, id, p, env, l).peers[id], if p.route.Some? then env.budget else None, p, l)
  {
    hide Frame;
    if p.route.Some? { assert Budgeted(p, env, l).replies == p.replies; }
  }

  class Transport {
    const limits: Limits
    var peers: Peers
    var routes: Routes
    var sends: seq<Send>
    var nextId: nat

    predicate Sane()
      reads this
    {
      && limits.frame <= MAX_FRAME && |peers| <= MAX_PEERS && Linked(peers, routes)
      && (forall id :: id in peers ==> id < nextId)
      && (forall i :: 0 <= i < |sends| ==> !(sends[i].success && sends[i].retired))
    }

    predicate Valid()
      reads this
    {
      Sane() && AllOk(peers, routes, limits.frame)
    }

    /** All but one peer are in order. */
    predicate ValidBut(id: nat)
      reads this
    {
      Sane() && forall k :: k in peers && k != id ==> PeerOk(peers[k], limits.frame) && Live(peers[k], routes)
    }

    constructor (limits: Limits, routes: nat)
      requires limits.frame <= MAX_FRAME
      ensures Valid() && peers == map[] && |this.routes| == routes
    {
      this.limits, this.peers, this.sends, this.nextId := limits, map[], [], 0;
      this.routes := seq(routes, _ => Route(false, None));
    }

    method ClosePeer(id: nat)
      requires ValidBut(id)
      modifies this`peers, this`routes
      ensures Valid() && Onward(old(peers), old(routes), peers, routes) && peers == old(peers) - {id}
      ensures Net(peers, routes) == Dropped(Net(old(peers), old(routes)), id)
    {
      hide PeerOk, Onward;
      ClosingOne(peers, routes, id, limits.frame);
      peers, routes := peers - {id}, Unlinked(routes, id);
    }

    /** The peer is in order again. */
    method Settle(id: nat, p: Peer)
      requires ValidBut(id) && id in peers && p.route == peers[id].route && Moved(peers[id], p)
      requires PeerOk(p, limits.frame) && Live(p, routes)
      modifies this`peers
      ensures Valid() && peers == old(peers)[id := p] && Onward(old(peers), routes, peers, routes)
    {
      hide PeerOk, Onward, Moved;
      ReplacingKeepsLinks(peers, routes, id, p);
      peers := peers[id := p];
    }

    /** `queue`: a frame that does not fit closes the peer. */
    method Queue(id: nat, p: Peer, payload: Bytes, success: bool, closeAfter: bool)
      requires ValidBut(id) && id in peers && p.route == peers[id].route && Moved(peers[id], p)
      requires Sendable(p.received, limits.frame) && Sendable(p.replies, limits.frame)
      requires (Due(p) || (closeAfter && Spoiled(p, limits.frame)))
      requires success ==> !closeAfter && p.route.Some? && p.route.value < |routes|
      requires RetiredRoute(p, routes) ==> closeAfter
      modifies this`peers, this`routes
      ensures Valid() && peers.Keys <= old(peers).Keys && Onward(old(peers), old(routes), peers, routes)
      ensures id in peers <==> 1 <= |payload| <= Room(limits, p.budget)
      ensures id in peers ==> peers[id] == Queued(p, payload, success, closeAfter) && routes == old(routes)
      ensures Net(peers, routes) == Replied(Net(old(peers), old(routes)), id, p, payload, success, closeAfter, limits)
    {
      hide PeerOk, Onward, Due, Spoiled, Linked, Unlinked;
      if |payload| < 1 || |payload| > Room(limits, p.budget) {
        ClosePeer(id);
        return;
      }
      QueuedResponds(p, payload, success, closeAfter, limits.frame);
      QueuedMoves(peers[id], p, payload, success, closeAfter);
      Settle(id, Queued(p, payload, success, closeAfter));
    }

    /** `authority_denied` before anything of a response was sent: the route is retired for good
        and the peer gets a refusal, after which it is closed. */
    method AuthorityDenied(id: nat, p: Peer, refusal: Bytes)
      requires ValidBut(id) && id in peers && p.route == peers[id].route && Moved(peers[id], p)
      requires Sendable(p.received, limits.frame) && Sendable(p.replies, limits.frame) && Due(p)
      requires p.route.Some? && p.route.value < |routes|
      modifies this`peers, this`routes
      ensures Valid() && peers.Keys <= old(peers).Keys && Onward(old(peers), old(routes), peers, routes)
      ensures |routes| == |old(routes)| && routes[p.route.value].retired
      ensures id in peers ==> !peers[id].success && peers[id].closeAfter
      ensures Net(peers, routes) == Denied(Net(old(peers), old(routes)), id, p, refusal, limits)
    {
      hide PeerOk, Onward, Due, Moved, Unlinked;
      var r := p.route.value;
      RetiringKeepsLinks(peers, routes, r, id, limits.frame);
      routes := routes[r := routes[r].(retired := true)];
      ghost var middle := routes;
      Queue(id, p, refusal, false, true);
      OnwardIsTransitive(old(peers), old(routes), old(peers), middle, peers, routes);
      RetiredStays(old(peers), middle, peers, routes, r);
    }

    // -------------------------------------------------------------- requests

    /** `dispatch`: the first request names its route, later ones use it. */
    method Dispatch(id: nat, p: Peer, env: Env)
      requires !RetiredRoute(p, routes)
      requires ValidBut(id) && id in peers && p.route == peers[id].route && Moved(peers[id], p)
      requires Sendable(p.received, limits.frame) && Sendable(p.replies, limits.frame) && Due(p)
      modifies this`peers, this`routes
      ensures Valid() && peers.Keys <= old(peers).Keys && Onward(old(peers), old(routes), peers, routes)
      ensures id in peers && peers[id].success ==>
                !env.expired && env.wellFormed && env.statusOk && env.statusAgain && env.success
      ensures p.route.Some? ==> p.route.value < |old(routes)|
      ensures Net(peers, routes) == Served(Net(old(peers), old(routes)), id, p, env, limits)
      ensures id in peers ==> LastFits(peers[id], if p.route.Some? then env.budget else None, p, limits)
    {
      hide LastFits, PeerOk, Onward, Due, Moved, Linked, Live, Greeted, Denied, Dropped, Replied;
      if p.route.Some? { RouteOfPeer(peers, routes, id); }
      AnswersFit(Net(peers, routes), id, p, env, limits);
      if env.expired {
        ClosePeer(id);
      } else if p.route.None? {
        Hello(id, p, env);
      } else {
        BudgetMoves(peers[id], p, env, limits);
        Answer(id, Budgeted(p, env, limits), env);
      }
    }

    /** A request on the peer's own route. */
    method Answer(id: nat, p: Peer, env: Env)
      requires !RetiredRoute(p, routes) && p.route.Some? && p.route.value < |routes|
      requires ValidBut(id) && id in peers && p.route == peers[id].route && Moved(peers[id], p)
      requires Sendable(p.received, limits.frame) && Sendable(p.replies, limits.frame) && Due(p)
      modifies this`peers, this`routes
      ensures Valid() && peers.Keys <= old(peers).Keys && Onward(old(peers), old(routes), peers, routes)
      ensures id in peers && peers[id].success ==> env.wellFormed && env.statusOk && env.statusAgain && env.success
      ensures Net(peers, routes) == Answering(Net(old(peers), old(routes)), id, p, env, limits)
    {
      hide PeerOk, Onward, Due, Moved, Linked, Live, Denied, Dropped, Replied, Retired, Unlinked, Sendable;
      if !env.wellFormed || !env.session {
        Queue(id, p, env.refusal, false, true);
      } else if !env.statusOk {
        AuthorityDenied(id, p, env.refusal);
      } else if |env.response| > Room(limits, p.budget) {
        ClosePeer(id);
      } else if !env.statusAgain {
        AuthorityDenied(id, p, env.refusal);
      } else {
        Queue(id, p, env.response, env.success, false);
      }
    }

    method Hello(id: nat, p: Peer, env: Env)
      requires ValidBut(id) && id in peers && p.route == peers[id].route && p.route.None? && Moved(peers[id], p)
      requires Sendable(p.received, limits.frame) && Sendable(p.replies, limits.frame) && Due(p)
      modifies this`peers, this`routes
      ensures Valid() && peers.Keys <= old(peers).Keys && Onward(old(peers), old(routes), peers, routes)
      ensures id in peers && peers[id].success ==> env.wellFormed && env.statusOk && env.statusAgain && env.success
      ensures id in peers && peers[id].success ==>
                && env.token.Some? && peers[id].route == env.token && env.token.value < |old(routes)|
                && !old(routes)[env.token.value].retired && old(routes)[env.token.value].peer.None?
      ensures Net(peers, routes) == Greeted(Net(old(peers), old(routes)), id, p, env, limits)
    {
      hide PeerOk, Onward, Due, Moved, Linked, Live, Denied, Dropped, Replied, Retired, Unlinked, Sendable;
      if !env.wellFormed || env.token.None? || env.token.value >= |routes| || routes[env.token.value].retired {
        Queue(id, p, env.refusal, false, true);
        return;
      }
      if routes[env.token.value].peer.Some? {
        ClosePeer(id);
        return;
      }
      Reserve(id, p, env);
    }

    /** The reservation is made before the answer is queued. */
    method Reserve(id: nat, p: Peer, env: Env)
      requires ValidBut(id) && id in peers && p.route == peers[id].route && p.route.None? && Moved(peers[id], p)
      requires Sendable(p.received, limits.frame) && Sendable(p.replies, limits.frame) && Due(p)
      requires env.wellFormed && env.token.Some? && env.token.value < |routes|
      requires !routes[env.token.value].retired && routes[env.token.value].peer.None?
      modifies this`peers, this`routes
      ensures Valid() && peers.Keys <= old(peers).Keys && Onward(old(peers), old(routes), peers, routes)
      ensures id in peers && peers[id].success ==>
                env.statusOk && env.statusAgain && env.success && peers[id].route == env.token
      ensures Net(peers, routes) == Greeted(Net(old(peers), old(routes)), id, p, env, limits)
    {
      hide PeerOk, Onward, Due, Moved, Linked, Live, Denied, Dropped, Replied, Retired, Unlinked, Sendable;
      var r := env.token.value;
      var q := p.(route := Some(r));
      HelloMoves(peers[id], p, r);
      LinkingKeepsLinks(peers, routes, r, id, q, limits.frame);
      ghost var before, held := peers, routes;
      peers, routes := peers[id := q], routes[r := routes[r].(peer := Some(id))];
      ghost var middle, linked := peers, routes;
      MovedIsReflexive(q);
      if !env.statusOk || !env.statusAgain {
        AuthorityDenied(id, q, env.refusal);
      } else {
        Queue(id, q, env.response, env.success, false);
      }
      OnwardIsTransitive(before, held, middle, linked, peers, routes);
    }

    // -------------------------------------------------------------- bytes in and out

    /** `read`: one piece of any size, never beyond the current frame. */
    method Read(id: nat, pieceSize: nat, lost: bool, env: Env)
      requires Valid() && id in peers && peers[id].output == []
      modifies this`peers, this`routes
      ensures Valid() && peers.Keys <= old(peers).Keys && Onward(old(peers), old(routes), peers, routes)
      ensures var p := old(peers)[id]; var net := Net(old(peers), old(routes));
              && p.taken <= |p.stream| && Wanted(p) > 0 && (p.route.Some? ==> p.route.value < |net.routes|)
              && Net(peers, routes)
                 == if lost || p.taken == |p.stream| then Dropped(net, id)
                    else
                      var n := PieceSize(pieceSize, Wanted(p), |p.stream| - p.taken);
                      Arrived(net, id, p, Fed(p, p.stream[p.taken..p.taken + n]), env, limits)
    {
      hide Onward, Due, Linked, Live, Joined, Size, Sendable, Taken, Arrived, Dropped, Fed;
      var p := peers[id];
      OnlyCollecting(p, limits.frame);
      IdleIsNotRetired(peers, routes, id, limits.frame);
      if p.route.Some? { RouteOfPeer(peers, routes, id); }
      if lost || p.taken == |p.stream| {
        ClosePeer(id);
        return;
      }
      var n := PieceSize(pieceSize, Wanted(p), |p.stream| - p.taken);
      TakeIn(id, p.stream[p.taken..p.taken + n], env);
    }

    /** The piece goes where the frame needs it. */
    method TakeIn(id: nat, piece: Bytes, env: Env)
      requires Valid() && id in peers && peers[id].output == [] && Collecting(peers[id], limits.frame)
      requires !RetiredRoute(peers[id], routes)
      requires IsNext(peers[id], piece) && 1 <= |piece| <= Wanted(peers[id])
      requires peers[id].route.Some? ==> peers[id].route.value < |routes|
      modifies this`peers, this`routes
      ensures Valid() && peers.Keys <= old(peers).Keys && Onward(old(peers), old(routes), peers, routes)
      ensures var p := old(peers)[id];
              && (Fed(p, piece).route.Some? ==> Fed(p, piece).route.value < |old(routes)|)
              && Net(peers, routes) == Arrived(Net(old(peers), old(routes)), id, p, Fed(p, piece), env, limits)
    {
      hide Onward, Due, Linked, Live, Joined, Size, Sendable, Taken, Served, Replied, Dropped;
      var p := peers[id];
      var fed := Fed(p, piece);
      FedTaken(p, piece, limits.frame);
      FedMoves(p, piece);
      if p.size.None? && |fed.header| == 4 {
        ReadHeader(id, fed, env);
      } else if p.size.Some? && |fed.body| == p.size.value {
        CompletedIsDue(fed, limits.frame);
        CompletedMoves(p, fed);
        if env.decodes {
          Dispatch(id, Completed(fed), env);
        } else {
          Queue(id, Completed(fed), env.refusal, false, true);
        }
      } else {
        StillCollecting(p, fed, limits.frame);
        Settle(id, fed);
      }
    }

    method ReadHeader(id: nat, fed: Peer, env: Env)
      requires Valid() && id in peers && fed.route == peers[id].route && Moved(peers[id], fed) && fed.output == []
      requires fed.sent == 0
      requires fed.budget.None?
      requires !RetiredRoute(fed, routes)
      requires Sendable(fed.received, limits.frame) && Sendable(fed.replies, limits.frame)
      requires |fed.header| == 4 && fed.body == [] && fed.size.None? && fed.taken <= |fed.stream|
      requires Taken(fed) == Joined(fed.received) + fed.header + fed.body
      requires |fed.replies| == |fed.received| && fed.wire == Joined(fed.replies)
      modifies this`peers, this`routes
      ensures Valid() && peers.Keys <= old(peers).Keys && Onward(old(peers), old(routes), peers, routes)
      ensures var net := Net(old(peers), old(routes));
              Net(peers, routes)
              == if 1 <= Size(fed.header) <= limits.frame then Net(net.peers[id := Sized(fed)], net.routes)
                 else Replied(net, id, fed, env.refusal, false, true, limits)
    {
      hide PeerOk, Onward, Due, Linked, Joined, Size, Sendable, Taken, Replied;
      if Size(fed.header) < 1 || Size(fed.header) > limits.frame {
        SpoiledHeader(fed, limits.frame);
        Queue(id, fed, env.refusal, false, true);
      } else {
        SizedCollects(fed, limits.frame);
        Settle(id, Sized(fed));
      }
    }

    /** `write`: one piece of the pending response. */
    method Write(id: nat, pieceSize: nat, lost: bool, env: Env)
      requires Valid() && id in peers && peers[id].output != []
      modifies this
      ensures Valid() && peers.Keys <= old(peers).Keys && Onward(old(peers), old(routes), peers, routes)
      ensures var p := old(peers)[id]; var net := Net(old(peers), old(routes));
              && p.sent < |p.output| && (p.success ==> p.route.Some? && p.route.value < |net.routes| && p.replies != [])
              && Net(peers, routes)
                 == (if p.success && !env.statusOk then
                       if p.sent > 0 then Dropped(Retired(net, p.route.value), id)
                       else Denied(net, id, Unqueued(p), env.refusal, limits)
                     else if env.expired || lost then Dropped(net, id)
                     else SentOn(net, id, p, PieceSize(pieceSize, IO_CHUNK, |p.output| - p.sent)))
      ensures sends == old(sends) + if (old(peers)[id].success && !env.statusOk) || env.expired || lost then []
                                    else [Send(old(peers)[id].success, RetiredRoute(old(peers)[id], old(routes)))]
      ensures nextId == old(nextId)
    {
      hide Onward, Due, Linked, Joined, Sendable, Taken, Spoiled, Dropped, Denied, SentOn;
      var p := peers[id];
      OnlyResponding(p, limits.frame);
      if p.success && !env.statusOk {
        LivePeer(peers, routes, id, limits.frame);
        if p.sent > 0 {
          RetireAndClose(id);
        } else {
          UnqueuedIsDue(p, limits.frame);
          AuthorityDenied(id, Unqueued(p), env.refusal);
        }
        return;
      }
      if env.expired || lost {
        ClosePeer(id);
        return;
      }
      SendPiece(id, pieceSize);
    }

    method SendPiece(id: nat, pieceSize: nat)
      requires Valid() && id in peers && peers[id].output != []
      modifies this`peers, this`routes, this`sends
      ensures Valid() && peers.Keys <= old(peers).Keys && Onward(old(peers), old(routes), peers, routes)
      ensures sends == old(sends) + [Send(old(peers)[id].success, RetiredRoute(old(peers)[id], old(routes)))]
      ensures var p := old(peers)[id]; var net := Net(old(peers), old(routes));
              && p.sent < |p.output|
              && Net(peers, routes) == SentOn(net, id, p, PieceSize(pieceSize, IO_CHUNK, |p.output| - p.sent))
    {
      hide Onward, Due, Linked, Joined, Sendable, Taken, Spoiled, Moved;
      var p := peers[id];
      OnlyResponding(p, limits.frame);
      var n := PieceSize(pieceSize, IO_CHUNK, |p.output| - p.sent);
      var send := Send(p.success, RetiredRoute(p, routes));
      LiveIsNotRetired(peers, routes, id, limits.frame);
      sends := sends + [send];
      PushedIsOk(p, n, limits.frame);
      PushedMoves(p, n);
      if p.sent + n < |p.output| {
        Settle(id, Pushed(p, n));
      } else if p.closeAfter {
        ClosePeer(id);
      } else {
        Settle(id, Answered(Pushed(p, n)));
      }
    }

    /** A partial success frame cannot be followed by a refusal. */
    method RetireAndClose(id: nat)
      requires Valid() && id in peers && peers[id].route.Some? && peers[id].route.value < |routes|
      modifies this`peers, this`routes
      ensures Valid() && Onward(old(peers), old(routes), peers, routes) && peers == old(peers) - {id}
      ensures old(peers)[id].route.Some? && old(peers)[id].route.value < |old(routes)|
      ensures Net(peers, routes) == Dropped(Retired(Net(old(peers), old(routes)), old(peers)[id].route.value), id)
    {
      hide PeerOk, Onward;
      var r := peers[id].route.value;
      RetiringKeepsLinks(peers, routes, r, id, limits.frame);
      routes := routes[r := routes[r].(retired := true)];
      ghost var middle := routes;
      ClosePeer(id);
      OnwardIsTransitive(old(peers), old(routes), old(peers), middle, peers, routes);
    }

    /** `accept`: a fourth connection is closed at once and never becomes a peer. */
    method Accept(stream: Bytes)
      requires Valid()
      modifies this`peers, this`nextId
      ensures Valid() && Onward(old(peers), routes, peers, routes)
      ensures |old(peers)| >= MAX_PEERS ==> peers == old(peers)
      ensures |old(peers)| < MAX_PEERS ==> peers == old(peers)[old(nextId) := NewPeer(stream)]
      // a new peer has sent and got nothing, holds no route and is not about to be closed
      ensures |old(peers)| < MAX_PEERS ==>
                var p := peers[old(nextId)];
                && p.stream == stream && p.taken == 0 && p.header == [] == p.body && p.size.None?
                && p.output == [] && p.sent == 0 && !p.success && !p.closeAfter && p.route.None? && p.budget.None?
                && p.received == [] == p.replies && p.wire == []
    {
      hide PeerOk, Onward;
      OnwardIsReflexive(peers, routes);
      if |peers| >= MAX_PEERS { return; }
      NewPeerIsOk(stream, limits.frame);
      AddingKeepsLinks(peers, routes, nextId, NewPeer(stream), limits.frame);
      peers, nextId := peers[nextId := NewPeer(stream)], nextId + 1;
    }
  }

  lemma IdleIsNotRetired(peers: Peers, routes: Routes, id: nat, max: nat)
    requires AllOk(peers, routes, max) && id in peers && peers[id].output == []
    ensures !RetiredRoute(peers[id], routes)
  {
    hide PeerOk;
    assert Live(peers[id], routes);
  }

  lemma LiveIsNotRetired(peers: Peers, routes: Routes, id: nat, max: nat)
    requires AllOk(peers, routes, max) && id in peers && peers[id].output != []
    ensures peers[id].success || !peers[id].closeAfter ==> !RetiredRoute(peers[id], routes)
  {
    hide PeerOk;
    assert Live(peers[id], routes);
  }

  function SmallerOf(a: int, b: int): int {
    if a < b then a else b
  }

  lemma MovedIsReflexive(p: Peer)
    ensures Moved(p, p)
  {
  }

  lemma OnwardIsReflexive(peers: Peers, routes: Routes)
    ensures Onward(peers, routes, peers, routes)
  {
  }

  lemma OnwardIsTransitive(p1: Peers, r1: Routes, p2: Peers, r2: Routes, p3: Peers, r3: Routes)
    requires Onward(p1, r1, p2, r2) && Onward(p2, r2, p3, r3)
    requires forall id :: id in p1 && id in p3 ==> id in p2
    ensures Onward(p1, r1, p3, r3)
  {
  }

  lemma RetiredStays(p1: Peers, r1: Routes, p2: Peers, r2: Routes, r: nat)
    requires Onward(p1, r1, p2, r2) && r < |r1| && r1[r].retired
    ensures |r2| == |r1| && r2[r].retired
  {
  }

  lemma QueuedMoves(before: Peer, p: Peer, payload: Bytes, success: bool, closeAfter: bool)
    requires Moved(before, p)
    ensures Moved(before, Queued(p, payload, success, closeAfter))
            && Queued(p, payload, success, closeAfter).route == p.route
  {
  }

  lemma HelloMoves(before: Peer, p: Peer, r: nat)
    requires Moved(before, p) && p.route.None?
    ensures Moved(before, p.(route := Some(r))) && (Due(p) ==> Due(p.(route := Some(r))))
  {
    assert Taken(p.(route := Some(r))) == Taken(p);
  }

  lemma BudgetMoves(before: Peer, p: Peer, env: Env, l: Limits)
    requires Moved(before, p)
    ensures var q := Budgeted(p, env, l); Moved(before, q) && (Due(p) ==> Due(q)) && q.route == p.route
  {
    assert Taken(Budgeted(p, env, l)) == Taken(p);
  }

  lemma RouteOfPeer(peers: Peers, routes: Routes, id: nat)
    requires Linked(peers, routes) && id in peers && peers[id].route.Some?
    ensures peers[id].route.value < |routes|
  {
    assert LinkedPeer(peers, routes, id);
  }

  lemma LivePeer(peers: Peers, routes: Routes, id: nat, max: nat)
    requires AllOk(peers, routes, max) && id in peers && peers[id].output != [] && peers[id].success
    ensures peers[id].route.Some? && peers[id].route.value < |routes| && !routes[peers[id].route.value].retired
  {
    hide PeerOk;
    assert Live(peers[id], routes);
  }

  lemma OnlyCollecting(p: Peer, max: nat)
    requires PeerOk(p, max) && p.output == []
    ensures Collecting(p, max) && Wanted(p) > 0
  {
  }

  lemma OnlyResponding(p: Peer, max: nat)
    requires PeerOk(p, max) && p.output != []
    ensures Responding(p, max) && p.sent < |p.output|
  {
  }

  lemma FedMoves(p: Peer, piece: Bytes)
    requires IsNext(p, piece)
    ensures Moved(p, Fed(p, piece)) && Fed(p, piece).route == p.route
  {
  }

  lemma CompletedMoves(p: Peer, fed: Peer)
    requires Moved(p, fed)
    ensures Moved(p, Completed(fed)) && Completed(fed).route == fed.route && Completed(fed).replies == fed.replies
  {
  }

  lemma StillCollecting(p: Peer, fed: Peer, max: nat)
    requires PeerOk(p, max) && Collecting(p, max) && fed.taken <= |fed.stream|
    requires fed == p.(taken := fed.taken, header := fed.header, body := fed.body)
    requires Taken(fed) == Joined(p.received) + fed.header + fed.body
    requires if p.size.None? then |fed.header| < 4 && fed.body == []
             else fed.header == p.header && |fed.body| < p.size.value
    ensures PeerOk(fed, max) && forall routes :: !RetiredRoute(p, routes) ==> Live(fed, routes)
  {
  }

  lemma SpoiledHeader(fed: Peer, max: nat)
    requires |fed.header| == 4 && fed.body == [] && fed.taken <= |fed.stream|
    requires (Size(fed.header) < 1 || Size(fed.header) > max)
    requires Taken(fed) == Joined(fed.received) + fed.header + fed.body
    requires |fed.replies| == |fed.received| && fed.wire == Joined(fed.replies)
    ensures Spoiled(fed, max)
  {
    assert Joined(fed.received) + fed.header + [] == Joined(fed.received) + fed.header;
  }

  lemma SizedCollects(fed: Peer, max: nat)
    requires |fed.header| == 4 && fed.body == [] && fed.taken <= |fed.stream| && 1 <= Size(fed.header) <= max
    requires fed.output == [] && fed.sent == 0 && fed.budget.None?
    requires Sendable(fed.received, max) && Sendable(fed.replies, max)
    requires Taken(fed) == Joined(fed.received) + fed.header + fed.body
    requires |fed.replies| == |fed.received| && fed.wire == Joined(fed.replies)
    ensures PeerOk(Sized(fed), max) && Sized(fed).route == fed.route
    ensures forall routes :: !RetiredRoute(fed, routes) ==> Live(Sized(fed), routes)
    ensures forall before :: Moved(before, fed) ==> Moved(before, Sized(fed))
  {
    assert Taken(Sized(fed)) == Taken(fed);
  }

  /** A response of which nothing was sent is taken back. */
  function Unqueued(p: Peer): Peer
    requires p.replies != []
  {
    p.(output := [], replies := p.replies[..|p.replies| - 1])
  }

  lemma UnqueuedIsDue(p: Peer, max: nat)
    requires PeerOk(p, max) && Responding(p, max) && p.sent == 0 && p.success
    ensures Due(Unqueued(p)) && Sendable(Unqueued(p).received, max) && Sendable(Unqueued(p).replies, max)
    ensures Moved(p, Unqueued(p)) && Unqueued(p).route == p.route
  {
  }

  lemma PushedMoves(p: Peer, n: nat)
    requires p.sent + n <= |p.output|
    ensures Moved(p, Pushed(p, n)) && Moved(p, Answered(Pushed(p, n)))
    ensures Pushed(p, n).route == p.route && Answered(Pushed(p, n)).route == p.route
    ensures forall routes :: Live(p, routes) && p.output != [] ==> Live(Pushed(p, n), routes)
    ensures forall routes :: !RetiredRoute(p, routes) ==> Live(Answered(Pushed(p, n)), routes)
  {
  }

  lemma NewPeerIsOk(stream: Bytes, max: nat)
    ensures PeerOk(NewPeer(stream), max) && NewPeer(stream).route.None?
            && forall routes :: Live(NewPeer(stream), routes)
  {
    assert Taken(NewPeer(stream)) == Joined([]) + [] + [];
  }

  lemma AddingKeepsLinks(peers: Peers, routes: Routes, id: nat, p: Peer, max: nat)
    requires Linked(peers, routes) && AllOk(peers, routes, max) && id !in peers
    requires p.route.None? && PeerOk(p, max) && Live(p, routes)
    ensures Linked(peers[id := p], routes) && AllOk(peers[id := p], routes, max) && |peers[id := p]| == |peers| + 1
    ensures Onward(peers, routes, peers[id := p], routes)
  {
    hide PeerOk;
    var more := peers[id := p];
    forall k | k in more
      ensures LinkedPeer(more, routes, k)
    {
      assert k != id ==> LinkedPeer(peers, routes, k);
    }
    forall r: nat | r < |routes|
      ensures LinkedRoute(more, routes, r)
    {
      assert LinkedRoute(peers, routes, r);
    }
  }

  lemma ClosingOne(peers: Peers, routes: Routes, id: nat, max: nat)
    requires Linked(peers, routes)
    requires forall k :: k in peers && k != id ==> PeerOk(peers[k], max) && Live(peers[k], routes)
    ensures Linked(peers - {id}, Unlinked(routes, id)) && AllOk(peers - {id}, Unlinked(routes, id), max)
    ensures Onward(peers, routes, peers - {id}, Unlinked(routes, id)) && |peers - {id}| <= |peers|
  {
    hide PeerOk, Linked, Live, Onward;
    UnlinkingKeepsLinks(peers, routes, id);
    ClosingMovesOn(peers, routes, id);
    forall k | k in peers && k != id
      ensures Live(peers[k], Unlinked(routes, id))
    {
      UnlinkingKeepsLive(peers[k], routes, id);
    }
  }

  lemma UnlinkingKeepsLive(p: Peer, routes: Routes, id: nat)
    requires Live(p, routes)
    ensures Live(p, Unlinked(routes, id))
  {
  }

  lemma UnlinkingKeepsLinks(peers: Peers, routes: Routes, id: nat)
    requires Linked(peers, routes)
    ensures Linked(peers - {id}, Unlinked(routes, id))
  {
    var fewer, freed := peers - {id}, Unlinked(routes, id);
    forall k | k in fewer
      ensures LinkedPeer(fewer, freed, k)
    {
      assert LinkedPeer(peers, routes, k);
    }
    forall r: nat | r < |freed|
      ensures LinkedRoute(fewer, freed, r)
    {
      assert LinkedRoute(peers, routes, r);
    }
  }

  lemma ClosingMovesOn(peers: Peers, routes: Routes, id: nat)
    ensures Onward(peers, routes, peers - {id}, Unlinked(routes, id)) && |peers - {id}| <= |peers|
  {
  }

  // ---------------------------------------------------------------- every history

  /** The peer's requests are the first that the blocking reader would yield, and what it was
      sent is the beginning of its framed responses. */
  predicate Faithful(p: Peer, max: nat) {
    && |Joined(p.received)| <= |p.stream|
    && Payloads(p.stream, max) == p.received + Payloads(p.stream[|Joined(p.received)|..], max)
    && p.wire <= Joined(p.replies)
  }

  /** Any events in any order, with pieces of any size.  Requests and bytes sent only accumulate,
      peers and routes stay linked, at most three peers exist, and no success byte was ever sent
      on a retired route. */
  method AnyHistory(t: Transport, rounds: nat)
    requires t.Valid()
    modifies t
    ensures t.Valid() && |t.peers| <= MAX_PEERS && Linked(t.peers, t.routes)
    ensures forall i :: 0 <= i < |t.sends| ==> !(t.sends[i].success && t.sends[i].retired)
    ensures forall id :: id in t.peers ==> Faithful(t.peers[id], t.limits.frame)
    decreases rounds
  {
    hide Linked, AllOk;
    if rounds > 0 {
      AnyEvent(t);
      AnyHistory(t, rounds - 1);
    } else {
      hide PeerOk, Joined, Payloads;
      forall id | id in t.peers
        ensures Faithful(t.peers[id], t.limits.frame)
      {
        OneIsOk(t.peers, t.routes, id, t.limits.frame);
        ReadsLikeTheBlockingReader(t.peers[id], t.limits.frame);
        SendsWholeFramesInOrder(t.peers[id], t.limits.frame);
      }
    }
  }

  lemma OneIsOk(peers: Peers, routes: Routes, id: nat, max: nat)
    requires AllOk(peers, routes, max) && id in peers
    ensures PeerOk(peers[id], max)
  {
    hide PeerOk, Live;
  }

  method AnyEvent(t: Transport)
    requires t.Valid()
    modifies t
    ensures t.Valid()
  {
    hide PeerOk, Linked;
    var choice: nat, id: nat, n: nat, lost: bool, env: Env, stream: Bytes := *, *, *, *, *, *;
    if choice == 0 {
      t.Accept(stream);
    } else if id in t.peers {
      if choice == 1 {
        t.ClosePeer(id);
      } else if t.peers[id].output == [] {
        t.Read(id, n, lost, env);
      } else {
        t.Write(id, n, lost, env);
      }
    }
  }
}
