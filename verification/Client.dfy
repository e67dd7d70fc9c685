/** The other end of the wire (tool/udp_client_gui.py, class Node), and the agreement between the
    two ends. Messages are byte strings. */
module Client {
  import opened Types
  import opened Packets

  datatype Parsed =
    | ParsedPing(message: Bytes)
    | ParsedNotify(typeNode: byte, port: word, state: byte, message: Bytes)
    | ParsedUnknown(typeCode: byte, payload: Bytes)

  /** None is the ValueError "Packet too long". */
  function BuildRegister(nodeType: byte, message: Bytes): Option<Bytes> {
    var payload := [nodeType] + message;
    var payloadLen := 2 + |payload|;
    if payloadLen > 255 then None else Some([REGISTER, payloadLen] + payload)
  }

  function BuildPong(message: Bytes): Option<Bytes> {
    var payloadLen := 2 + |message|;
    if payloadLen > 255 then None else Some([PONG, payloadLen] + message)
  }

  /** `struct.unpack('<H', ..)` */
  function LittleEndian(lo: byte, hi: byte): word {
    lo as int + 256 * (hi as int)
  }

  /** None is the client's "Invalid packet". */
  function ParseIncoming(data: Bytes): Option<Parsed> {
    if |data| < 2 then None
    else
      var totalLen := data[1];
      if |data| < totalLen || totalLen < 2 then None
      else
        var payload := data[2..totalLen];
        if data[0] == PING then Some(ParsedPing(payload))
        else if data[0] == NOTIFY then
          if |payload| < 4 then None
          else Some(ParsedNotify(payload[0], LittleEndian(payload[1], payload[2]), payload[3], payload[4..]))
        else Some(ParsedUnknown(data[0], payload))
  }

  /** A datagram as recvDataUDP stores it: at most BUFFER_SIZE - 1 bytes, then zeros. */
  function Received(data: Bytes): Buffer
    requires |data| < BUFFER_SIZE
  {
    data + Zeros(BUFFER_SIZE - |data|)
  }

  /** Every REGISTER a client can build decodes to its length, its node type and its message up to
      the first NUL. */
  lemma RegisterRoundTrip(nodeType: byte, message: Bytes, addr: Addr)
    ensures BuildRegister(nodeType, message).Some? <==> |message| <= 252
    ensures |message| <= 252 ==>
      Parse(Received(BuildRegister(nodeType, message).value), addr)
        == Some(RegisterPacket(REGISTER, 3 + |message|, CStr(message), addr, nodeType))
  {
    if |message| <= 252 {
      hide CStr, Zeros, Received;
      var data := BuildRegister(nodeType, message).value;
      ReceivedAt(data, 3, |data|);
      assert data[0] == REGISTER && data[1] == |data| && data[2] == nodeType;
      assert data[3..|data|] == message;
    }
  }

  lemma ReceivedAt(data: Bytes, from: nat, to: nat)
    requires from <= to <= |data| < BUFFER_SIZE
    ensures data <= Received(data) && Received(data)[from..to] == data[from..to]
  {}

  /** Every PONG a client can build decodes exactly, NUL bytes included. */
  lemma PongRoundTrip(message: Bytes, addr: Addr)
    ensures BuildPong(message).Some? <==> |message| <= 253
    ensures |message| <= 253 ==>
      Parse(Received(BuildPong(message).value), addr)
        == Some(PongPacket(PONG, 2 + |message|, message, addr))
  {
    if |message| <= 253 {
      var buf := Received(BuildPong(message).value);
      assert |message| > 0 ==> buf[2..2 + |message|] == message;
    }
  }

  /** A NOTIFY about a node at host port `hostPort`, whose raw port field is in network order, shows
      the client that port, the type, the state, and the message cut to 33 bytes and padded to 34. */
  lemma NotifyReachesClient(message: Bytes, addr: Addr, typeNode: byte, hostPort: word, state: NodeState)
    ensures ParseIncoming(NotifyBytes(
              NotifyPacket(NOTIFY, NOTIFY_LENGTH, message, addr, typeNode, Swap16(hostPort), state)))
         == Some(ParsedNotify(typeNode, hostPort, state.Code(), Fit(message, 34)))
    ensures |message| <= 33 ==> Fit(message, 34) == message + Zeros(34 - |message|)
    ensures |message| > 33 ==> Fit(message, 34) == message[..33] + [0]
  {
    var p := NotifyPacket(NOTIFY, NOTIFY_LENGTH, message, addr, typeNode, Swap16(hostPort), state);
    var data := NotifyBytes(p);
    assert data[2..40][4..] == Fit(message, 34);
  }

  lemma PingReachesClient(message: Bytes, addr: Addr)
    ensures ParseIncoming(PingBytes(PingPacket(PING, PING_LENGTH, message, addr)))
         == Some(ParsedPing(Fit(message, 18)))
  {
    var data := PingBytes(PingPacket(PING, PING_LENGTH, message, addr));
    assert data[2..20] == Fit(message, 18);
  }

  /** What the client cannot read, and what it reads of a message of another type. */
  lemma OtherDatagrams(data: Bytes)
    ensures ParseIncoming(data) == None <==>
      |data| < 2 || data[1] < 2 || |data| < data[1] || (data[0] == 3 && data[1] < 6)
    ensures |data| >= 2 && 2 <= data[1] <= |data| && data[0] != 1 && data[0] != 3 ==>
      ParseIncoming(data) == Some(ParsedUnknown(data[0], data[2..data[1]]))
  {}

  /** The formats in figures. Host port 5000 is 136, 19 on the wire. */
  lemma WireInFigures(addr: Addr, stamp: Bytes)
    requires |stamp| == 19
    ensures BuildRegister(3, [104, 105]) == Some([0, 5, 3, 104, 105])
    ensures BuildPong([79, 75]) == Some([2, 4, 79, 75])
    ensures PingBytes(PingPacket(1, 20, [80, 105, 110, 103], addr)) == [1, 20, 80, 105, 110, 103] + Zeros(14)
    ensures NotifyBytes(NotifyPacket(3, 40, [84, 105, 109, 101, 111, 117, 116, 32] + stamp, addr, 3,
                                     Swap16(5000), TIMEOUT))
         == [3, 40, 3, 136, 19, 2, 84, 105, 109, 101, 111, 117, 116, 32] + stamp + Zeros(7)
  {
    hide Zeros, Fit;
    var ping: Bytes, timeout: Bytes := [80, 105, 110, 103], [84, 105, 109, 101, 111, 117, 116, 32];
    FitShort(ping, 18);
    FitShort(timeout + stamp, 34);
    Joined([1, 20], ping, Zeros(14), []);
    assert [REGISTER, 5] + ([3] + [104, 105]) == [0, 5, 3, 104, 105];
    assert [PONG, 4] + [79, 75] == [2, 4, 79, 75];
    assert [1, 20] + ping == [1, 20, 80, 105, 110, 103];
    assert [3, 40, 3, 136, 19, 2] + timeout == [3, 40, 3, 136, 19, 2, 84, 105, 109, 101, 111, 117, 116, 32];
    Joined([3, 40, 3, 136, 19, 2], timeout, stamp, Zeros(7));
  }

  lemma Joined(a: Bytes, b: Bytes, c: Bytes, d: Bytes)
    ensures a + (b + c + d) == a + b + c + d
    ensures a + (b + c) == a + b + c
  {}
}
