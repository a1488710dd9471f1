/** TPKT framing (RFC 1006 section 6) over a byte stream that arrives in arbitrary pieces. */
module Tpkt {
  import opened Common
  import opened Bytes

  const TPKT_VERSION: Octet := 0x03
  const TPKT_HEADER_LEN := 4
  const MAX_TPDU := 65531

  /** One TPDU in its frame; a total that needs more than two octets is refused. */
  function Frame(tpdu: Octets): Result<Octets> {
    var total :- ToBytes2(TPKT_HEADER_LEN + |tpdu|);
    Ok([TPKT_VERSION, 0x00] + total + tpdu)
  }

  function Concat(pieces: seq<Octets>): Octets {
    if pieces == [] then [] else pieces[0] + Concat(pieces[1..])
  }

  /** A receiving socket: the pieces that have not been received yet, none of them empty. */
  class Socket {
    var pieces: seq<Octets>

    ghost predicate Valid()
      reads this
    {
      forall i :: 0 <= i < |pieces| ==> pieces[i] != []
    }

    function Stream(): Octets
      reads this
    {
      Concat(pieces)
    }

    constructor (pieces: seq<Octets>)
      requires forall i :: 0 <= i < |pieces| ==> pieces[i] != []
      ensures Valid() && Stream() == Concat(pieces)
    {
      this.pieces := pieces;
    }

    /** `sock_recv`: at most `limit` octets of the piece that is there, none at the end of the stream. */
    method Recv(limit: nat) returns (chunk: Octets)
      requires Valid() && limit > 0
      modifies this
      ensures Valid() && chunk + Stream() == old(Stream())
      ensures |chunk| <= limit && (chunk == [] <==> old(Stream()) == [])
    {
      if pieces == [] {
        return [];
      }
      var first := pieces[0];
      if |first| <= limit {
        chunk := first;
        pieces := pieces[1..];
      } else {
        chunk := first[..limit];
        pieces := [first[limit..]] + pieces[1..];
        assert first == chunk + first[limit..];
      }
    }

    /** `recv_exact`: exactly `n` octets, or the end of the stream before them. */
    method RecvExact(n: int) returns (r: Result<Octets>)
      requires Valid()
      modifies this
      ensures Valid() && (r, Stream()) == TakeExact(old(Stream()), n)
    {
      var data: Octets := [];
      while |data| < n
        invariant Valid() && data + Stream() == old(Stream())
        invariant |data| <= if n < 0 then 0 else n
        decreases n - |data|
      {
        var chunk := Recv(n - |data|);
        if chunk == [] {
          assert old(Stream()) == data;
          return Raised(IncompleteRead);
        }
        data := data + chunk;
      }
      assert old(Stream())[..|data|] == data && old(Stream())[|data|..] == Stream();
      r := Ok(data);
    }

    method RecvTpdu() returns (r: Result<Octets>)
      requires Valid()
      modifies this
      ensures Valid() && (r, Stream()) == TakeTpdu(old(Stream()))
    {
      var header := RecvExact(TPKT_HEADER_LEN);
      if header.Raised? {
        return Raised(header.error);
      }
      var total := FromBytes(header.value[2..4]);
      r := RecvExact(total - TPKT_HEADER_LEN);
    }

    /** The receiving side of the serve loop: every TPDU up to the one the stream breaks off in. */
    method RecvAll() returns (tpdus: seq<Octets>)
      requires Valid()
      modifies this
      ensures Valid() && tpdus == TakeAll(old(Stream())) && Stream() == []
    {
      tpdus := [];
      while true
        invariant Valid() && tpdus + TakeAll(Stream()) == TakeAll(old(Stream()))
        decreases |Stream()|
      {
        var r := RecvTpdu();
        if r.Raised? {
          return;
        }
        tpdus := tpdus + [r.value];
      }
    }
  }

  // What the stream alone decides.

  /** `n` octets off the front, or nothing and an exhausted stream. */
  function TakeExact(stream: Octets, n: int): (Result<Octets>, Octets) {
    if n <= 0 then (Ok([]), stream)
    else if |stream| < n then (Raised(IncompleteRead), [])
    else (Ok(stream[..n]), stream[n..])
  }

  function TakeTpdu(stream: Octets): (r: (Result<Octets>, Octets))
    ensures r.0.Ok? ==> |r.1| < |stream|
    ensures r.0.Raised? ==> r.1 == []
  {
    match TakeExact(stream, TPKT_HEADER_LEN)
    case (Ok(header), rest) => TakeExact(rest, FromBytes(header[2..4]) - TPKT_HEADER_LEN)
    case (Raised(e), rest) => (Raised(e), rest)
  }

  function TakeAll(stream: Octets): seq<Octets>
    decreases |stream|
  {
    match TakeTpdu(stream)
    case (Ok(tpdu), rest) => [tpdu] + TakeAll(rest)
    case (Raised(_), _) => []
  }

  /** The frames of a list of TPDUs, one after the other. */
  function Frames(tpdus: seq<Octets>): Octets
    requires forall t <- tpdus :: |t| <= MAX_TPDU
  {
    if tpdus == [] then [] else Frame(tpdus[0]).value + Frames(tpdus[1..])
  }

  lemma FrameAccepts(tpdu: Octets)
    ensures Frame(tpdu).Ok? <==> |tpdu| <= MAX_TPDU
  {
  }

  lemma TakeFramed(tpdu: Octets, rest: Octets)
    requires |tpdu| <= MAX_TPDU
    ensures TakeTpdu(Frame(tpdu).value + rest) == (Ok(tpdu), rest)
  {
    var total := TPKT_HEADER_LEN + |tpdu|;
    var two := ToBytes2(total).value;
    var stream := Frame(tpdu).value + rest;
    assert stream == [TPKT_VERSION, 0x00] + two + (tpdu + rest);
    assert stream[..4][2..4] == two;
    assert stream[4..] == tpdu + rest;
    ToBytes2Back(total);
  }

  /** However the frames of a list of TPDUs are cut into pieces, receiving gives back exactly that list. */
  lemma {:induction false} FramesComeBack(tpdus: seq<Octets>, pieces: seq<Octets>)
    requires forall t <- tpdus :: |t| <= MAX_TPDU
    requires Concat(pieces) == Frames(tpdus)
    ensures TakeAll(Concat(pieces)) == tpdus
    decreases tpdus
  {
    if tpdus != [] {
      var rest := Frames(tpdus[1..]);
      TakeFramed(tpdus[0], rest);
      assert Concat([rest]) == rest + Concat([]) == rest;
      FramesComeBack(tpdus[1..], [rest]);
    }
  }

  method ReceiveFrames(tpdus: seq<Octets>, pieces: seq<Octets>) returns (received: seq<Octets>)
    requires forall t <- tpdus :: |t| <= MAX_TPDU
    requires (forall i :: 0 <= i < |pieces| ==> pieces[i] != []) && Concat(pieces) == Frames(tpdus)
    ensures received == tpdus
  {
    var socket := new Socket(pieces);
    received := socket.RecvAll();
    FramesComeBack(tpdus, pieces);
  }

  /** A frame is version 3, a zero, its own length in two octets, and the TPDU (RFC 1006 section 6); a TPDU it has no
      room for is an OverflowError. */
  lemma FrameOctets(tpdu: Octets)
    ensures Frame(tpdu).Ok? ==>
              var frame := Frame(tpdu).value;
              && |frame| == 4 + |tpdu| && frame[0] == 3 && frame[1] == 0
              && frame[2] as int * 0x100 + frame[3] as int == |frame| && frame[4..] == tpdu
    ensures Frame(tpdu).Raised? ==> Frame(tpdu) == Raised(OverflowError)
  {
    if Frame(tpdu).Ok? {
      var two := ToBytes2(4 + |tpdu|).value;
      assert Frame(tpdu).value == [3, 0] + two + tpdu;
    }
  }

  /** What is received: the length in the third and fourth octet counts, the first two are not looked at; a length below
      that of the header gives nothing and leaves the rest; a stream that breaks off is an incomplete read. */
  lemma ReceivedExactly(stream: Octets)
    ensures |stream| < 4 ==> TakeTpdu(stream) == (Raised(IncompleteRead), [])
    ensures |stream| >= 4 ==>
              var total := stream[2] as int * 0x100 + stream[3] as int;
              TakeTpdu(stream) ==
              if total <= 4 then (Ok([]), stream[4..])
              else if |stream| < total then (Raised(IncompleteRead), [])
              else (Ok(stream[4..total]), stream[total..])
  {
    if |stream| >= 4 {
      FromTwo(stream[2], stream[3]);
      assert stream[..4][2..4] == [stream[2], stream[3]];
      var total := stream[2] as int * 0x100 + stream[3] as int;
      if 4 < total <= |stream| {
        assert stream[4..][..total - 4] == stream[4..total] && stream[4..][total - 4..] == stream[total..];
      }
    }
  }
}
