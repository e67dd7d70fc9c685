/** Packet records and their wire format (source/Packet.cpp, source/IOHandler.cpp). The constructor
    of a `Packet` is the C++ class it was created as; `msgType` is the field the dispatch reads. */
module Packets {
  import opened Types
  import opened Bits
  import opened SafeQueue

  datatype Packet =
    | RegisterPacket(msgType: byte, payloadLength: byte, message: Bytes, addr: Addr, typeNode: byte)
    | PongPacket(msgType: byte, payloadLength: byte, message: Bytes, addr: Addr)
    | PingPacket(msgType: byte, payloadLength: byte, message: Bytes, addr: Addr)
    | NotifyPacket(msgType: byte, payloadLength: byte, message: Bytes, addr: Addr,
                   typeNode: byte, portNode: word, stateNode: NodeState)

  // ------------------------------------------------------------ the format, byte by byte

  /** `std::string(cMessage)`: everything before the first NUL. */
  function CStr(s: Bytes): (r: Bytes)
    ensures r <= s && 0 !in r && (|r| == |s| || s[|r|] == 0)
  {
    if s == [] || s[0] == 0 then [] else [s[0]] + CStr(s[1..])
  }

  function Max(a: nat, b: nat): nat {
    if a < b then b else a
  }

  /** The buffer holds a `header`-byte header and everything up to the declared length. */
  predicate Holds(buf: Bytes, header: nat) {
    |buf| >= 2 && |buf| >= Max(buf[1], header)
  }

  /** What follows the header, up to the declared length. */
  function Payload(buf: Bytes, header: nat): Bytes
    requires Holds(buf, header)
  {
    if buf[1] > header then buf[header..buf[1]] else []
  }

  function RegisterOf(buf: Bytes, addr: Addr): Packet
    requires Holds(buf, 3)
  {
    RegisterPacket(buf[0], buf[1], CStr(Payload(buf, 3)), addr, buf[2])
  }

  function PongOf(buf: Bytes, addr: Addr): Packet
    requires Holds(buf, 2)
  {
    PongPacket(buf[0], buf[1], Payload(buf, 2), addr)
  }

  /** A message in `room` bytes: cut to leave a final NUL, padded with NULs. */
  function Fit(message: Bytes, room: nat): (r: Bytes)
    requires room > 0
    ensures |r| == room
  {
    if |message| < room then message + Zeros(room - |message|) else message[..room - 1] + [0]
  }

  lemma FitShort(message: Bytes, room: nat)
    requires |message| < room
    ensures Fit(message, room) == message + Zeros(room - |message|)
  {}

  function PingBytes(p: Packet): (r: Bytes)
    requires p.PingPacket?
    ensures |r| == PING_LENGTH
  {
    [p.msgType, p.payloadLength] + Fit(p.message, PING_LENGTH - 2)
  }

  function NotifyBytes(p: Packet): (r: Bytes)
    requires p.NotifyPacket?
    ensures |r| == NOTIFY_LENGTH
  {
    [p.msgType, p.payloadLength, p.typeNode, p.portNode / 256, p.portNode % 256, p.stateNode.Code()]
      + Fit(p.message, NOTIFY_LENGTH - 6)
  }

  // ------------------------------------------------------------ decoders

  method GetByte(buffer: array<byte>, offset: nat) returns (value: byte, next: nat)
    requires offset % 8 == 0 && offset / 8 < buffer.Length
    ensures value == buffer[offset / 8] && next == offset + 8
  {
    hide Extract, Pow2;
    var v;
    v, next := GetBits(buffer, offset, 8);
    ExtractAligned(buffer[..], offset / 8);
    value := v;
  }

  /** void RigisterPacket::decode(char* buffer); `offset` is the bit cursor when it returns. The buffer
      need only hold the header and the declared length: nothing beyond either is read. */
  method DecodeRegister(buffer: array<byte>, addr: Addr) returns (packet: Packet, offset: nat)
    requires Holds(buffer[..], 3)
    ensures packet == RegisterOf(buffer[..], addr)
    ensures offset == 8 * Max(buffer[1], 3)
  {
    hide Bits.Extract, Bits.ExtractStr, Bits.ExtractByte, Bits.BitAt, CStr;
    var typeMessage, payloadLength, typeNode;
    typeMessage, offset := GetByte(buffer, 0);
    payloadLength, offset := GetByte(buffer, offset);
    typeNode, offset := GetByte(buffer, offset);
    var size := payloadLength - offset / 8;
    var message: Bytes := [];
    if size > 0 {
      var cMessage := new byte[size + 1](_ => 0);
      offset := GetBitsStr(buffer, offset, cMessage, size);
      cMessage[size] := 0;
      ExtractStrAligned(buffer[..], 3, size);
      assert cMessage[..size] == buffer[3..payloadLength];
      message := CStr(cMessage[..]);
      CStrClosed(cMessage[..size]);
      assert cMessage[..] == cMessage[..size] + [0];
    }
    packet := RegisterPacket(typeMessage, payloadLength, message, addr, typeNode);
  }

  /** The terminating NUL does not change a C string. */
  lemma {:induction false} CStrClosed(s: Bytes)
    ensures CStr(s + [0]) == CStr(s)
  {
    if s != [] {
      assert (s + [0])[1..] == s[1..] + [0];
      CStrClosed(s[1..]);
    }
  }

  /** void PongPacket::decode(char* buffer) */
  method DecodePong(buffer: array<byte>, addr: Addr) returns (packet: Packet, offset: nat)
    requires Holds(buffer[..], 2)
    ensures packet == PongOf(buffer[..], addr)
    ensures offset == 8 * Max(buffer[1], 2)
  {
    hide Bits.Extract, Bits.ExtractStr, Bits.ExtractByte, Bits.BitAt;
    var typeMessage, payloadLength;
    typeMessage, offset := GetByte(buffer, 0);
    payloadLength, offset := GetByte(buffer, offset);
    var size := payloadLength - offset / 8;
    var message: Bytes := [];
    if size > 0 {
      var cMessage := new byte[size + 1](_ => 0);
      offset := GetBitsStr(buffer, offset, cMessage, size);
      cMessage[size] := 0;
      ExtractStrAligned(buffer[..], 2, size);
      assert cMessage[..size] == buffer[2..payloadLength];
      message := cMessage[..size];
    }
    packet := PongPacket(typeMessage, payloadLength, message, addr);
  }

  /** So the rest of the receive buffer cannot influence a packet: the bytes below
      max(declared length, header) decode to the same one. */
  lemma DecodeIsLocal(buf: Bytes, addr: Addr)
    ensures Holds(buf, 3) ==>
      var low := buf[..Max(buf[1], 3)];
      Holds(low, 3) && RegisterOf(low, addr) == RegisterOf(buf, addr)
    ensures Holds(buf, 2) ==>
      var low := buf[..Max(buf[1], 2)];
      Holds(low, 2) && PongOf(low, addr) == PongOf(buf, addr)
  {
    if Holds(buf, 2) {
      var low := buf[..Max(buf[1], 2)];
      assert Payload(low, 2) == Payload(buf, 2);
    }
    if Holds(buf, 3) {
      var low := buf[..Max(buf[1], 3)];
      assert Payload(low, 3) == Payload(buf, 3);
    }
  }

  // ------------------------------------------------------------ encoders

  method PutByte(buffer: array<byte>, offset: nat, value: byte) returns (next: nat)
    requires offset % 8 == 0 && offset / 8 < buffer.Length && buffer[offset / 8] == 0
    modifies buffer
    ensures next == offset + 8 && buffer[..] == old(buffer[..])[offset / 8 := value]
  {
    hide Deposit;
    DepositAligned(buffer[..], offset / 8, value);
    next := SetBits(buffer, offset, value, 8);
  }

  /** A message laid over zeros from byte `k` on is the fitted message. */
  lemma LaidMessage(before: Bytes, k: nat, message: Bytes, n: nat, length: nat)
    requires k < length < |before| && n <= |message|
    requires n == if |message| < length - k then |message| else length - k - 1
    requires forall i :: k <= i < |before| ==> before[i] == 0
    ensures (before[..k] + message[..n] + before[k + n..])[..length] == before[..k] + Fit(message, length - k)
  {
    assert before[k + n..length] == Zeros(length - k - n);
    if n < |message| {
      assert before[k + n..length] == [0];
    } else {
      assert message[..n] == message;
    }
  }

  /** The tail shared by both encoders: as much of the message as leaves one byte free. */
  method PutMessage(buffer: array<byte>, offset: nat, message: Bytes, length: nat) returns (next: nat)
    requires offset % 8 == 0 && offset / 8 < length < buffer.Length
    requires forall i :: offset / 8 <= i < buffer.Length ==> buffer[i] == 0
    modifies buffer
    ensures buffer[..length] == old(buffer[..offset / 8]) + Fit(message, length - offset / 8)
  {
    hide Bits.DepositAll, Bits.StrFields, Fit, Zeros;
    ghost var before, k := buffer[..], offset / 8;
    var sizeMess := |message|;
    var sizeRemain := length - offset / 8;
    ghost var n := if sizeMess < sizeRemain then sizeMess else sizeRemain - 1;
    DepositStrAligned(before, k, message[..n]);
    if sizeMess < sizeRemain {
      next := SetBitsStr(buffer, offset, message, sizeMess);
    } else {
      next := SetBitsStr(buffer, offset, message, sizeRemain - 1);
    }
    LaidMessage(before, k, message, n, length);
    assert buffer[..length] == buffer[..][..length];
  }

  /** std::string PingPacket::encode() */
  method EncodePing(p: Packet) returns (r: Bytes)
    requires p.PingPacket?
    ensures r == PingBytes(p)
  {
    var buffer := new byte[PING_LENGTH + 1](_ => 0);
    var offset := PutByte(buffer, 0, p.msgType);
    offset := PutByte(buffer, offset, p.payloadLength);
    assert buffer[..2] == [p.msgType, p.payloadLength];
    offset := PutMessage(buffer, offset, p.message, PING_LENGTH);
    buffer[PING_LENGTH] := 0;
    r := buffer[..PING_LENGTH];
  }

  /** std::string NotifyPacket::encode() */
  method EncodeNotify(p: Packet) returns (r: Bytes)
    requires p.NotifyPacket?
    ensures r == NotifyBytes(p)
  {
    hide Bits.Deposit, Bits.Extract, Bits.BitAt, Bits.BitOf, Bits.Pow2;
    var buffer := new byte[NOTIFY_LENGTH + 1](_ => 0);
    var offset := PutByte(buffer, 0, p.msgType);
    offset := PutByte(buffer, offset, p.payloadLength);
    offset := PutByte(buffer, offset, p.typeNode);
    DepositAligned16(buffer[..], 3, p.portNode);
    offset := SetBits(buffer, offset, p.portNode, 16);
    offset := PutByte(buffer, offset, p.stateNode.Code());
    assert buffer[..6] == [p.msgType, p.payloadLength, p.typeNode,
                           p.portNode / 256, p.portNode % 256, p.stateNode.Code()];
    offset := PutMessage(buffer, offset, p.message, NOTIFY_LENGTH);
    buffer[NOTIFY_LENGTH] := 0;
    r := buffer[..NOTIFY_LENGTH];
  }

  // ------------------------------------------------------------ dispatch

  /** What a datagram becomes in g_receivedIOQueue, if anything. */
  function Parse(buf: Buffer, addr: Addr): Option<Packet> {
    if buf[0] == REGISTER then Some(RegisterOf(buf, addr))
    else if buf[0] == PONG then Some(PongOf(buf, addr))
    else None
  }

  /** The receiving queue after a datagram. */
  function Accept(q: Queue<Packet>, buf: Buffer, addr: Addr): Queue<Packet> {
    match Parse(buf, addr)
    case Some(p) => q.Push(p, true)
    case None => q
  }

  /** The downcast NodeManagament::handleReceivedData makes on the type field is valid. */
  predicate ReceivedCastOk(p: Packet) {
    p.msgType == REGISTER ==> p.RegisterPacket?
  }

  /** The downcasts IOHandler::handleTxThread makes on the type field are valid. */
  predicate SentCastOk(p: Packet) {
    (p.msgType == PING ==> p.PingPacket?) && (p.msgType == NOTIFY ==> p.NotifyPacket?)
  }

  /** TypeMessage checkMessageType(char* buffer) */
  method CheckMessageType(buffer: array<byte>) returns (typeMessage: byte)
    requires buffer.Length > 0
    ensures typeMessage == buffer[0]
  {
    var offset;
    typeMessage, offset := GetByte(buffer, 0);
  }

  /** One round of IOHandler::handleRxThread: type check, then pushMessageReceived. */
  method HandleDatagram(buffer: array<byte>, addr: Addr, received: ThreadSafeQueue<Packet>)
    requires buffer.Length == BUFFER_SIZE
    modifies received
    ensures received.View() == Accept(old(received.View()), buffer[..], addr)
  {
    var typeMessage := CheckMessageType(buffer);
    if typeMessage == REGISTER {
      var packet, offset := DecodeRegister(buffer, addr);
      received.Push(packet, true);
    } else if typeMessage == PONG {
      var packet, offset := DecodePong(buffer, addr);
      received.Push(packet, true);
    }
  }

  /** The bytes IOHandler::handleTxThread hands to the socket for a packet, if any. */
  function WireOf(p: Packet): Option<Bytes>
    requires SentCastOk(p)
  {
    if p.msgType == PING then Some(PingBytes(p))
    else if p.msgType == NOTIFY then Some(NotifyBytes(p))
    else None
  }

  /** One round of IOHandler::handleTxThread, up to the call of sendDataUDP. */
  method HandleOutgoing(p: Packet) returns (wire: Option<Bytes>)
    requires SentCastOk(p)
    ensures wire == WireOf(p)
  {
    wire := None;
    if p.msgType == PING {
      var bytes := EncodePing(p);
      wire := Some(bytes);
    } else if p.msgType == NOTIFY {
      var bytes := EncodeNotify(p);
      wire := Some(bytes);
    }
  }
}
