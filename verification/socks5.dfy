/** The SOCKS5 server side of one connection (handle_conn in src/lib.rs): the greeting and the
    CONNECT request of sections 3 to 6 of RFC 1928, read from a byte stream in sequence.
    Whether a name is valid UTF-8 and whether Tor reaches a destination are given. */
module Socks5 {
  import opened Optional

  type byte = x: int | 0 <= x < 256

  datatype Address = V4(octets: seq<byte>) | Domain(name: seq<byte>) | V6(octets: seq<byte>)

  datatype Outcome =
    | Connect(address: Address, port: nat)
    | NotSocks5
    | UnsupportedCommand
    | UnknownAddressType
    | InvalidName
    | Truncated

  /** A parse: its outcome, what was written to the peer, and the bytes left unread. */
  datatype Parse = Parse(outcome: Outcome, written: seq<byte>, rest: seq<byte>)

  /** The reply with a zeroed IPv4 bind address. */
  function Reply(status: byte): seq<byte> {
    [5, status, 0, 1, 0, 0, 0, 0, 0, 0]
  }

  const NoAuthentication: seq<byte> := [5, 0]

  // ---------------------------------------------------------------- the server's reading

  /** Network byte order. */
  function PortNumber(high: byte, low: byte): (port: nat)
    ensures port < 65536
  {
    (high as int) * 256 + low as int
  }

  function ReadPort(address: Address, input: seq<byte>): Parse {
    if |input| < 2 then Parse(Truncated, NoAuthentication, [])
    else Parse(Connect(address, PortNumber(input[0], input[1])), NoAuthentication, input[2..])
  }

  function ReadName(input: seq<byte>, utf8: seq<byte> -> bool): Parse {
    if |input| < 1 || |input| < 1 + input[0] as int then Parse(Truncated, NoAuthentication, [])
    else
      var name := input[1..1 + input[0] as int];
      if !utf8(name) then Parse(InvalidName, NoAuthentication, input[1 + input[0] as int..])
      else ReadPort(Domain(name), input[1 + input[0] as int..])
  }

  function ReadAddress(kind: byte, input: seq<byte>, utf8: seq<byte> -> bool): Parse {
    if kind == 1 then
      if |input| < 4 then Parse(Truncated, NoAuthentication, []) else ReadPort(V4(input[..4]), input[4..])
    else if kind == 3 then ReadName(input, utf8)
    else if kind == 4 then
      if |input| < 16 then Parse(Truncated, NoAuthentication, []) else ReadPort(V6(input[..16]), input[16..])
    else Parse(UnknownAddressType, NoAuthentication + Reply(8), input)
  }

  function ReadRequest(input: seq<byte>, utf8: seq<byte> -> bool): Parse {
    if |input| < 4 then Parse(Truncated, NoAuthentication, [])
    else if input[0] != 5 || input[1] != 1 then Parse(UnsupportedCommand, NoAuthentication + Reply(7), input[4..])
    else ReadAddress(input[3], input[4..], utf8)
  }

  function ReadConnection(input: seq<byte>, utf8: seq<byte> -> bool): Parse {
    if |input| < 2 then Parse(Truncated, [], [])
    else if input[0] != 5 then Parse(NotSocks5, [], input[2..])
    else if |input| < 2 + input[1] as int then Parse(Truncated, [], [])
    else ReadRequest(input[2 + input[1] as int..], utf8)
  }

  // ---------------------------------------------------------------- the client's encoding

  /** Section 3: version, number of methods, methods. */
  function Greeting(methods: seq<byte>): seq<byte>
    requires |methods| < 256
  {
    [5, |methods|] + methods
  }

  predicate ValidAddress(a: Address, utf8: seq<byte> -> bool) {
    match a
    case V4(octets) => |octets| == 4
    case V6(octets) => |octets| == 16
    case Domain(name) => |name| < 256 && utf8(name)
  }

  /** Section 5: address type and address. */
  function EncodeAddress(a: Address, utf8: seq<byte> -> bool): seq<byte>
    requires ValidAddress(a, utf8)
  {
    match a
    case V4(octets) => [1] + octets
    case V6(octets) => [4] + octets
    case Domain(name) => [3, |name|] + name
  }

  function EncodePort(port: nat): seq<byte>
    requires port < 65536
  {
    [port / 256, port % 256]
  }

  /** Section 4: version, CONNECT, reserved, address, port in network byte order. */
  function Request(reserved: byte, a: Address, port: nat, utf8: seq<byte> -> bool): seq<byte>
    requires ValidAddress(a, utf8) && port < 65536
  {
    [5, 1, reserved] + EncodeAddress(a, utf8) + EncodePort(port)
  }

  // ---------------------------------------------------------------- parsing inverts encoding

  lemma PortRoundTrip(a: Address, port: nat, rest: seq<byte>)
    requires port < 65536
    ensures ReadPort(a, EncodePort(port) + rest) == Parse(Connect(a, port), NoAuthentication, rest)
  {
  }

  lemma AddressRoundTrip(a: Address, port: nat, rest: seq<byte>, utf8: seq<byte> -> bool)
    requires ValidAddress(a, utf8) && port < 65536
    ensures var bytes := EncodeAddress(a, utf8);
      ReadAddress(bytes[0], bytes[1..] + EncodePort(port) + rest, utf8)
          == Parse(Connect(a, port), NoAuthentication, rest)
  {
    var tail := EncodePort(port) + rest;
    var bytes := EncodeAddress(a, utf8);
    var input := bytes[1..] + EncodePort(port) + rest;
    assert input == bytes[1..] + tail;
    PortRoundTrip(a, port, rest);
    match a
    case V4(octets) =>
      assert input[..4] == octets && input[4..] == tail;
    case V6(octets) =>
      assert input[..16] == octets && input[16..] == tail;
    case Domain(name) =>
      assert bytes[1..] == [|name|] + name;
      assert input[0] == |name| && input[1..1 + |name|] == name && input[1 + |name|..] == tail;
  }

  lemma GreetingIsRead(methods: seq<byte>, request: seq<byte>, utf8: seq<byte> -> bool)
    requires |methods| < 256
    ensures ReadConnection(Greeting(methods) + request, utf8) == ReadRequest(request, utf8)
  {
    assert (Greeting(methods) + request)[2 + |methods|..] == request;
  }

  lemma CommandIsRead(reserved: byte, kind: byte, body: seq<byte>, utf8: seq<byte> -> bool)
    ensures ReadRequest([5, 1, reserved, kind] + body, utf8) == ReadAddress(kind, body, utf8)
  {
    assert ([5, 1, reserved, kind] + body)[4..] == body;
  }

  lemma RequestSplits(reserved: byte, a: Address, port: nat, rest: seq<byte>, utf8: seq<byte> -> bool)
    requires ValidAddress(a, utf8) && port < 65536
    ensures var bytes := EncodeAddress(a, utf8);
      Request(reserved, a, port, utf8) + rest == [5, 1, reserved, bytes[0]] + (bytes[1..] + EncodePort(port) + rest)
  {
    var bytes := EncodeAddress(a, utf8);
    assert bytes == [bytes[0]] + bytes[1..];
  }

  /** Every CONNECT request of a client that greets first is understood, with exactly its own
      bytes consumed, whatever follows. */
  lemma ParsesEveryConnect(methods: seq<byte>, reserved: byte, a: Address, port: nat, rest: seq<byte>,
      utf8: seq<byte> -> bool)
    requires |methods| < 256 && ValidAddress(a, utf8) && port < 65536
    ensures ReadConnection(Greeting(methods) + Request(reserved, a, port, utf8) + rest, utf8)
         == Parse(Connect(a, port), NoAuthentication, rest)
  {
    var bytes := EncodeAddress(a, utf8);
    var request := Request(reserved, a, port, utf8) + rest;
    assert Greeting(methods) + Request(reserved, a, port, utf8) + rest == Greeting(methods) + request;
    hide ReadConnection, ReadRequest, ReadAddress;
    GreetingIsRead(methods, request, utf8);
    RequestSplits(reserved, a, port, rest, utf8);
    CommandIsRead(reserved, bytes[0], bytes[1..] + EncodePort(port) + rest, utf8);
    AddressRoundTrip(a, port, rest, utf8);
  }

  lemma PortDigits(high: byte, low: byte)
    ensures EncodePort(PortNumber(high, low)) == [high, low]
  {
    var port: int := PortNumber(high, low);
    assert port / 256 == high as int && port % 256 == low as int;
  }

  lemma PortOrigin(a: Address, input: seq<byte>)
    requires ReadPort(a, input).outcome.Connect?
    ensures ReadPort(a, input).outcome.address == a && ReadPort(a, input).outcome.port < 65536
    ensures input == EncodePort(ReadPort(a, input).outcome.port) + ReadPort(a, input).rest
  {
    PortDigits(input[0], input[1]);
    hide EncodePort, PortNumber;
    assert input == [input[0], input[1]] + input[2..];
  }

  /** The number of bytes of an address after its type. */
  function AddressLength(kind: byte, input: seq<byte>): nat
    requires kind == 3 ==> input != []
  {
    if kind == 1 then 4 else if kind == 4 then 16 else if kind == 3 then 1 + input[0] as int else 0
  }

  lemma AddressIsRead(kind: byte, input: seq<byte>, utf8: seq<byte> -> bool) returns (n: nat, a: Address)
    requires ReadAddress(kind, input, utf8).outcome.Connect?
    ensures n <= |input| && ValidAddress(a, utf8) && EncodeAddress(a, utf8) == [kind] + input[..n]
    ensures ReadAddress(kind, input, utf8) == ReadPort(a, input[n..])
  {
    n := AddressLength(kind, input);
    a := if kind == 1 then V4(input[..n]) else if kind == 4 then V6(input[..n]) else Domain(input[1..n]);
    assert input[..n][1..] == input[1..n];
    AddressBytes(kind, input[..n], utf8);
    hide ReadPort, EncodeAddress;
  }

  lemma Glue(kind: byte, input: seq<byte>, n: nat, port: seq<byte>, rest: seq<byte>)
    requires n <= |input| && input[n..] == port + rest
    ensures [kind] + input == [kind] + input[..n] + port + rest
  {
    assert input == input[..n] + input[n..];
  }

  lemma AddressOrigin(kind: byte, input: seq<byte>, utf8: seq<byte> -> bool)
    requires ReadAddress(kind, input, utf8).outcome.Connect?
    ensures var p := ReadAddress(kind, input, utf8);
      ValidAddress(p.outcome.address, utf8) && p.outcome.port < 65536
      && [kind] + input == EncodeAddress(p.outcome.address, utf8) + EncodePort(p.outcome.port) + p.rest
  {
    var n, a := AddressIsRead(kind, input, utf8);
    hide ReadAddress, ReadPort, EncodePort, EncodeAddress;
    PortOrigin(a, input[n..]);
    var p := ReadPort(a, input[n..]);
    Glue(kind, input, n, EncodePort(p.outcome.port), p.rest);
  }

  lemma AddressBytes(kind: byte, bytes: seq<byte>, utf8: seq<byte> -> bool)
    requires (kind == 1 && |bytes| == 4) || (kind == 4 && |bytes| == 16)
              || (kind == 3 && |bytes| > 0 && |bytes| == 1 + bytes[0] as int && utf8(bytes[1..]))
    ensures var a := if kind == 1 then V4(bytes) else if kind == 4 then V6(bytes) else Domain(bytes[1..]);
      ValidAddress(a, utf8) && EncodeAddress(a, utf8) == [kind] + bytes
  {
    if kind == 3 { assert bytes == [bytes[0]] + bytes[1..]; }
  }

  /** The input begins with a greeting and the encoding of the request. */
  ghost predicate Encodes(input: seq<byte>, p: Parse, methods: seq<byte>, reserved: byte, utf8: seq<byte> -> bool) {
    && p.outcome.Connect? && |methods| < 256 && ValidAddress(p.outcome.address, utf8) && p.outcome.port < 65536
    && input == Greeting(methods) + (Request(reserved, p.outcome.address, p.outcome.port, utf8) + p.rest)
  }

  /** Nothing else is taken for a CONNECT: what the parser accepts is a greeting followed by
      the encoding of what it returns. */
  lemma AcceptsOnlyConnects(input: seq<byte>, utf8: seq<byte> -> bool)
    requires ReadConnection(input, utf8).outcome.Connect?
    ensures exists methods: seq<byte>, reserved: byte ::
              Encodes(input, ReadConnection(input, utf8), methods, reserved, utf8)
  {
    var p := ReadConnection(input, utf8);
    var n := 2 + input[1] as int;
    var request := input[n..];
    AddressOrigin(request[3], request[4..], utf8);
    assert input == Greeting(input[2..n]) + request;
    assert request == [5, 1, request[2]] + ([request[3]] + request[4..]);
    RequestAssociates(request[2], p, utf8);
    hide ReadConnection, ReadRequest, ReadAddress, EncodeAddress, EncodePort, Request, Greeting;
    assert Encodes(input, p, input[2..n], request[2], utf8);
  }

  lemma RequestAssociates(reserved: byte, p: Parse, utf8: seq<byte> -> bool)
    requires p.outcome.Connect? && ValidAddress(p.outcome.address, utf8) && p.outcome.port < 65536
    ensures Request(reserved, p.outcome.address, p.outcome.port, utf8) + p.rest
         == [5, 1, reserved] + (EncodeAddress(p.outcome.address, utf8) + EncodePort(p.outcome.port) + p.rest)
  {
  }

  lemma PortIgnores(a: Address, input: seq<byte>, more: seq<byte>)
    ensures !ReadPort(a, input).outcome.Truncated? ==>
      ReadPort(a, input + more) == ReadPort(a, input).(rest := ReadPort(a, input).rest + more)
  {
    if |input| >= 2 { assert (input + more)[2..] == input[2..] + more; }
  }

  lemma AddressIgnores(kind: byte, input: seq<byte>, more: seq<byte>, utf8: seq<byte> -> bool)
    requires !ReadAddress(kind, input, utf8).outcome.Truncated?
    ensures ReadAddress(kind, input + more, utf8)
         == ReadAddress(kind, input, utf8).(rest := ReadAddress(kind, input, utf8).rest + more)
  {
    if kind == 1 || kind == 3 || kind == 4 {
      var n := if kind == 1 then 4 else if kind == 4 then 16 else 1 + input[0] as int;
      assert (input + more)[..n] == input[..n] && (input + more)[n..] == input[n..] + more;
      if kind == 3 {
        assert (input + more)[1..n] == input[1..n];
        PortIgnores(Domain(input[1..n]), input[n..], more);
      } else {
        PortIgnores(if kind == 1 then V4(input[..n]) else V6(input[..n]), input[n..], more);
      }
    }
  }

  /** What a parse decides never depends on bytes it has not read. */
  lemma UnreadBytesDoNotMatter(input: seq<byte>, more: seq<byte>, utf8: seq<byte> -> bool)
    requires !ReadConnection(input, utf8).outcome.Truncated?
    ensures ReadConnection(input + more, utf8)
         == ReadConnection(input, utf8).(rest := ReadConnection(input, utf8).rest + more)
  {
    if input[0] != 5 {
      assert (input + more)[2..] == input[2..] + more;
    } else {
      var n := 2 + input[1] as int;
      var request := input[n..];
      assert (input + more)[n..] == request + more;
      assert (request + more)[4..] == request[4..] + more;
      if request[0] == 5 && request[1] == 1 { AddressIgnores(request[3], request[4..], more, utf8); }
    }
  }

  /** The replies: a refused command is answered with 0x07, an unknown address type with 0x08,
      and the peer is told nothing else before the destination is dialled. */
  lemma RefusalReplies(input: seq<byte>, utf8: seq<byte> -> bool)
    ensures var p := ReadConnection(input, utf8);
      && (p.outcome.UnsupportedCommand? <==> p.written == [5, 0] + Reply(7))
      && (p.outcome.UnknownAddressType? <==> p.written == [5, 0] + Reply(8))
      && (p.outcome.NotSocks5? ==> p.written == [])
      && (p.outcome.Connect? || p.outcome.InvalidName? ==> p.written == [5, 0])
  {
    assert Reply(7)[1] == 7 && Reply(8)[1] == 8;
    assert ([5, 0] + Reply(7))[3] == 7 && ([5, 0] + Reply(8))[3] == 8;
  }

  // ---------------------------------------------------------------- which bytes are refused

  /** The input holds a complete greeting and the four bytes of a request's header. */
  predicate HasHeader(input: seq<byte>) {
    |input| >= 2 && input[0] == 5 && |input| >= 6 + input[1] as int
  }

  /** A byte of the header: version, command, reserved, address type. */
  function Header(input: seq<byte>, k: nat): byte
    requires HasHeader(input) && k < 4
  {
    input[2 + input[1] as int + k]
  }

  /** A client of another protocol is dropped without an answer. With a complete header 0x07 is
      answered exactly to a version other than 5 or a command other than CONNECT, and 0x08 exactly
      to a CONNECT whose address type is none of the three, and nothing after the header has been
      read. Without one, or with a CONNECT of a known type, nobody is refused. */
  lemma RefusedBytesExactly(input: seq<byte>, utf8: seq<byte> -> bool)
    ensures var parse := ReadConnection(input, utf8);
            && (parse.outcome.NotSocks5? <==> |input| >= 2 && input[0] != 5)
            && (parse.outcome.NotSocks5? ==> parse.written == [])
            && (parse.written == [5, 0, 5, 7, 0, 1, 0, 0, 0, 0, 0, 0] <==>
                 HasHeader(input) && (Header(input, 0) != 5 || Header(input, 1) != 1))
            && (parse.written == [5, 0, 5, 8, 0, 1, 0, 0, 0, 0, 0, 0] <==>
                 && HasHeader(input) && Header(input, 0) == 5 && Header(input, 1) == 1
                 && Header(input, 3) !in {1, 3, 4})
            && (parse.written != [5, 0] && parse.written != [] ==>
                 HasHeader(input) && parse.rest == input[6 + input[1] as int..])
  {
    var r7, r8 := NoAuthentication + Reply(7), NoAuthentication + Reply(8);
    assert r7 == [5, 0, 5, 7, 0, 1, 0, 0, 0, 0, 0, 0] && r8 == [5, 0, 5, 8, 0, 1, 0, 0, 0, 0, 0, 0];
    assert r7[3] == 7 && r8[3] == 8 && |r7| == |r8| == 12;
    if HasHeader(input) {
      var n := 2 + input[1] as int;
      assert input[n..][4..] == input[n + 4..];
      AddressWrites(input[n + 3], input[n + 4..], utf8);
      hide ReadAddress;
    }
  }

  lemma AddressWrites(kind: byte, input: seq<byte>, utf8: seq<byte> -> bool)
    ensures ReadAddress(kind, input, utf8).written ==
              if kind != 1 && kind != 3 && kind != 4 then NoAuthentication + Reply(8) else NoAuthentication
    ensures kind != 1 && kind != 3 && kind != 4 ==> ReadAddress(kind, input, utf8).rest == input
    ensures !ReadAddress(kind, input, utf8).outcome.NotSocks5?
  {
  }

  // ---------------------------------------------------------------- the source's reads in sequence

  /** The input is a greeting, the encoding of a CONNECT request, and whatever comes after. */
  ghost predicate Sends(input: seq<byte>, methods: seq<byte>, reserved: byte, a: Address, port: nat, rest: seq<byte>,
      utf8: seq<byte> -> bool) {
    && |methods| < 256 && ValidAddress(a, utf8) && port < 65536
    && input == Greeting(methods) + Request(reserved, a, port, utf8) + rest
  }

  /** Section 6: version, status, reserved, and the address 0.0.0.0 with port 0. */
  lemma ReplyBytes(status: byte)
    ensures NoAuthentication + Reply(status) == [5, 0, 5, status, 0, 1, 0, 0, 0, 0, 0, 0]
  {
  }

  /** A peer's socket: the bytes still to be read and those written to it. */
  class Socket {
    var input: seq<byte>
    var written: seq<byte>

    constructor (input: seq<byte>)
      ensures this.input == input && written == []
    {
      this.input, written := input, [];
    }

    /** read_exact: all bytes or none, and then the stream is at its end. */
    method ReadExact(n: nat) returns (bytes: Option<seq<byte>>)
      modifies this`input
      ensures |old(input)| >= n ==> bytes == Some(old(input)[..n]) && input == old(input)[n..]
      ensures |old(input)| < n ==> bytes == None && input == []
    {
      if |input| < n {
        input := [];
        return None;
      }
      bytes := Some(input[..n]);
      input := input[n..];
    }

    method WriteAll(bytes: seq<byte>)
      modifies this`written
      ensures written == old(written) + bytes
    {
      written := written + bytes;
    }

    /** The address of a request, by its type. */
    method TakeAddress(kind: byte, utf8: seq<byte> -> bool) returns (outcome: Outcome)
      requires written == NoAuthentication
      modifies this
      ensures Parse(outcome, written, input) == ReadAddress(kind, old(input), utf8)
    {
      var address;
      if kind == 1 || kind == 4 {
        var octets := ReadExact(if kind == 1 then 4 else 16);
        if octets.None? { return Truncated; }
        address := if kind == 1 then V4(octets.value) else V6(octets.value);
      } else if kind == 3 {
        var length := ReadExact(1);
        if length.None? { return Truncated; }
        var name := ReadExact(length.value[0]);
        if name.None? { return Truncated; }
        assert name.value == old(input)[1..1 + old(input)[0] as int];
        if !utf8(name.value) { return InvalidName; }
        address := Domain(name.value);
      } else {
        WriteAll(Reply(8));
        return UnknownAddressType;
      }
      var port := ReadExact(2);
      if port.None? { return Truncated; }
      return Connect(address, PortNumber(port.value[0], port.value[1]));
    }

    method TakeRequest(utf8: seq<byte> -> bool) returns (outcome: Outcome)
      requires written == []
      modifies this
      ensures Parse(outcome, written, input) == ReadConnection(old(input), utf8)
    {
      var head := ReadExact(2);
      if head.None? { return Truncated; }
      if head.value[0] != 5 { return NotSocks5; }
      var methods := ReadExact(head.value[1]);
      if methods.None? { return Truncated; }
      WriteAll(NoAuthentication);
      var request := ReadExact(4);
      if request.None? { return Truncated; }
      if request.value[0] != 5 || request.value[1] != 1 {
        WriteAll(Reply(7));
        return UnsupportedCommand;
      }
      outcome := TakeAddress(request.value[3], utf8);
    }

    /** handle_conn up to the splice: dials what was requested and answers 0x00 or 0x04. Every
        client that sends a CONNECT request has exactly its destination dialled and exactly its
        own bytes consumed. */
    method Handle(utf8: seq<byte> -> bool, reachable: (Address, nat) -> bool) returns (connected: bool)
      requires written == []
      modifies this
      ensures var p := ReadConnection(old(input), utf8);
        && input == p.rest
        && (connected <==> p.outcome.Connect? && reachable(p.outcome.address, p.outcome.port))
        && written == p.written + (if !p.outcome.Connect? then [] else if connected then Reply(0) else Reply(4))
      ensures forall methods: seq<byte>, reserved: byte, a: Address, port: nat, rest: seq<byte> ::
        Sends(old(input), methods, reserved, a, port, rest, utf8) ==>
          input == rest && (connected <==> reachable(a, port))
              && written == [5, 0, 5, if connected then 0 else 4, 0, 1, 0, 0, 0, 0, 0, 0]
    {
      forall methods: seq<byte>, reserved: byte, a: Address, port: nat,
          rest: seq<byte> | Sends(input, methods, reserved, a, port, rest, utf8)
        ensures ReadConnection(input, utf8) == Parse(Connect(a, port), NoAuthentication, rest)
      {
        ParsesEveryConnect(methods, reserved, a, port, rest, utf8);
      }
      ReplyBytes(0);
      ReplyBytes(4);
      hide ReadConnection, Sends, Reply;
      var outcome := TakeRequest(utf8);
      if !outcome.Connect? { return false; }
      connected := reachable(outcome.address, outcome.port);
      WriteAll(Reply(if connected then 0 else 4));
    }
  }
}
