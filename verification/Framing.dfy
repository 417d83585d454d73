/** Length-prefixed frames: four bytes of size, most significant first, then the payload. */
module Framing {
  import opened Common
  import opened Base64

  type Bytes = seq<Byte>

  function Size(header: Bytes): nat
    requires |header| == 4
  {
    (header[0] as int) * 16777216 + (header[1] as int) * 65536 + (header[2] as int) * 256 + header[3] as int
  }

  function Header(n: nat): Bytes {
    [n / 16777216 % 256, n / 65536 % 256, n / 256 % 256, n % 256]
  }

  lemma HeaderRoundTrip(n: nat)
    requires n < 4294967296
    ensures |Header(n)| == 4 && Size(Header(n)) == n
  {
    hide *;
    var a, b, c := n / 256, n / 65536, n / 16777216;
    assert a / 256 == b && b / 256 == c && c < 256;
    assert n == a * 256 + n % 256 && a == b * 256 + a % 256 && b == c * 256 + b % 256;
    HeaderIs(n);
  }

  lemma HeaderIs(n: nat)
    ensures |Header(n)| == 4
    ensures Size(Header(n)) == n / 16777216 % 256 * 16777216 + n / 65536 % 256 * 65536 + n / 256 % 256 * 256 + n % 256
  {
  }

  function Frame(payload: Bytes): Bytes {
    Header(|payload|) + payload
  }

  /** What the beginning of a stream is. */
  datatype Parsed = Incomplete | Bad | Complete(payload: Bytes, rest: Bytes)

  function Parse(stream: Bytes, max: nat): Parsed {
    if |stream| < 4 then Incomplete
    else
      var size := Size(stream[..4]);
      if size < 1 || size > max then Bad
      else if |stream| < 4 + size then Incomplete
      else Complete(stream[4..4 + size], stream[4 + size..])
  }

  /** All payloads of a stream, in order, up to the first bad or incomplete frame. */
  function Payloads(stream: Bytes, max: nat): seq<Bytes>
    decreases |stream|
  {
    match Parse(stream, max)
    case Complete(payload, rest) => [payload] + Payloads(rest, max)
    case _ => []
  }

  function Joined(payloads: seq<Bytes>): Bytes {
    if payloads == [] then [] else Joined(payloads[..|payloads| - 1]) + Frame(payloads[|payloads| - 1])
  }

  predicate Sendable(payloads: seq<Bytes>, max: nat) {
    forall i :: 0 <= i < |payloads| ==> 1 <= |payloads[i]| <= max
  }

  /** A frame is read back exactly, and nothing of what follows it is touched. */
  lemma FrameRoundTrip(payload: Bytes, rest: Bytes, max: nat)
    requires 1 <= |payload| <= max < 4294967296
    ensures Parse(Frame(payload) + rest, max) == Complete(payload, rest)
  {
    HeaderRoundTrip(|payload|);
    hide Header, Size;
    var stream := Frame(payload) + rest;
    assert stream[..4] == Header(|payload|);
    assert stream[4..4 + |payload|] == payload;
    assert stream[4 + |payload|..] == rest;
  }

  lemma Regroup<T>(a: seq<T>, b: seq<T>, c: seq<T>)
    ensures (a + b) + c == a + (b + c)
  {
  }

  lemma OneFrameMore(payload: Bytes, rest: Bytes, max: nat)
    requires 1 <= |payload| <= max < 4294967296
    ensures Payloads(Frame(payload) + rest, max) == [payload] + Payloads(rest, max)
  {
    hide Frame, Parse;
    FrameRoundTrip(payload, rest, max);
  }

  /** Reading a sequence of frames gives the payloads back, whatever follows. */
  lemma {:induction false} JoinedRoundTrip(payloads: seq<Bytes>, rest: Bytes, max: nat)
    requires Sendable(payloads, max) && max < 4294967296
    ensures Payloads(Joined(payloads) + rest, max) == payloads + Payloads(rest, max)
    decreases |payloads|
  {
    if payloads == [] {
      assert Joined(payloads) + rest == rest;
    } else {
      var last := payloads[|payloads| - 1];
      var front := payloads[..|payloads| - 1];
      hide Frame, Parse, Payloads;
      JoinedRoundTrip(front, Frame(last) + rest, max);
      OneFrameMore(last, rest, max);
      Regroup(Joined(front), Frame(last), rest);
      Regroup(front, [last], Payloads(rest, max));
      FrontAndLast(payloads);
    }
  }

  lemma FrontAndLast(payloads: seq<Bytes>)
    requires payloads != []
    ensures payloads[..|payloads| - 1] + [payloads[|payloads| - 1]] == payloads
  {
  }

  lemma JoinedSnoc(payloads: seq<Bytes>, last: Bytes)
    ensures Joined(payloads + [last]) == Joined(payloads) + Frame(last)
  {
    assert (payloads + [last])[..|payloads|] == payloads;
  }

  /** The two halves of a connection: what the client will ever have sent, and how much of it
      has been taken from the socket. */
  class Socket {
    const stream: Bytes
    var taken: nat

    constructor (stream: Bytes)
      ensures this.stream == stream && taken == 0
    {
      this.stream, this.taken := stream, 0;
    }

    predicate Valid()
      reads this
    {
      taken <= |stream|
    }

    /** `recv(limit)`: at least one byte and at most `limit`, in pieces of any size; nothing at
        the end of the stream. */
    method Receive(limit: nat) returns (piece: Bytes)
      requires Valid() && limit > 0
      modifies this
      ensures Valid() && taken == old(taken) + |piece| && piece == stream[old(taken)..taken]
      ensures |piece| <= limit && (piece == [] <==> old(taken) == |stream|)
    {
      var n: nat := *;
      var left := |stream| - taken;
      var most := if limit < left then limit else left;
      n := if 1 <= n <= most then n else most;
      piece := stream[taken..taken + n];
      taken := taken + n;
    }
  }

  datatype Received<T> = Got(value: T) | EndOfStream | BadFrame

  /** `_receive_exact`. */
  method ReceiveExact(sock: Socket, size: nat, cleanEnd: bool) returns (r: Received<Bytes>)
    requires sock.Valid()
    modifies sock
    ensures sock.Valid()
    ensures r.Got? <==> old(sock.taken) + size <= |sock.stream|
    ensures r.Got? ==> sock.taken == old(sock.taken) + size && r.value == sock.stream[old(sock.taken)..sock.taken]
    ensures r.EndOfStream? <==> cleanEnd && size > 0 && old(sock.taken) == |sock.stream|
  {
    var result: Bytes := [];
    while |result| < size
      invariant sock.Valid() && |result| <= size && sock.taken == old(sock.taken) + |result|
      invariant result == sock.stream[old(sock.taken)..sock.taken]
      decreases size - |result|
    {
      var piece := sock.Receive(size - |result|);
      if piece == [] {
        return if result == [] && cleanEnd then EndOfStream else BadFrame;
      }
      result := result + piece;
    }
    r := Got(result);
  }

  /** `receive_frame`: the blocking reader takes exactly the first frame. */
  method ReceiveFrame(sock: Socket, max: nat) returns (r: Received<Bytes>)
    requires sock.Valid()
    modifies sock
    ensures sock.Valid()
    ensures var rest := sock.stream[old(sock.taken)..];
            match Parse(rest, max)
            case Complete(payload, after) => r == Got(payload) && sock.stream[sock.taken..] == after
            case Bad => r == BadFrame
            case Incomplete => r in {EndOfStream, BadFrame} && (r == EndOfStream <==> rest == [])
  {
    ghost var start := sock.taken;
    ghost var rest := sock.stream[start..];
    var header := ReceiveExact(sock, 4, true);
    if !header.Got? { return header; }
    assert header.value == rest[..4];
    var size := Size(header.value);
    if size < 1 || size > max { return BadFrame; }
    r := ReceiveExact(sock, size, false);
    if r.Got? {
      assert r.value == rest[4..4 + size];
      assert sock.stream[sock.taken..] == rest[4 + size..];
    }
  }

  /** The blocking reader, called again and again, yields the payloads of the stream. */
  method ReceiveAll(sock: Socket, max: nat) returns (payloads: seq<Bytes>)
    requires sock.Valid()
    modifies sock
    ensures payloads == Payloads(sock.stream[old(sock.taken)..], max)
  {
    payloads := [];
    var open := true;
    ghost var start := sock.taken;
    while open
      invariant sock.Valid()
      invariant Payloads(sock.stream[start..], max)
                == payloads + if open then Payloads(sock.stream[sock.taken..], max) else []
      decreases open, |sock.stream| - sock.taken
    {
      ghost var before := sock.taken;
      var r := ReceiveFrame(sock, max);
      if r.Got? {
        payloads := payloads + [r.value];
      } else {
        open := false;
      }
    }
  }
}
