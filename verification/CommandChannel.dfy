/** The command channel: `_send_buf_to_ds_app` on the client, `_read_message` on the server, and the
    byte stream between them, which may cut the bytes into any positive pieces. */
module CommandChannel {

  type Byte = x: int | 0 <= x < 256

  const MAX_PACKET_LEN: nat := 4096

  /** Both ends run on one host and copy the length in its byte order, whichever that is. */
  datatype ByteOrder = LittleEndian | BigEndian

  // ---------------------------------------------------------------------------
  // The packet
  // ---------------------------------------------------------------------------

  /** The two bytes of `(guint16) len`. */
  function Prefix(len: nat, order: ByteOrder): seq<Byte> {
    var low, high := len % 256, (len / 256) % 256;
    match order
    case LittleEndian => [low, high]
    case BigEndian => [high, low]
  }

  function Announced(wire: seq<Byte>, order: ByteOrder): nat
    requires |wire| >= 2
  {
    match order
    case LittleEndian => (wire[0] as int) + 256 * (wire[1] as int)
    case BigEndian => (wire[1] as int) + 256 * (wire[0] as int)
  }

  function Packet(payload: seq<Byte>, order: ByteOrder): seq<Byte> {
    Prefix(|payload|, order) + payload
  }

  /** What the client's buffer can hold next to the prefix. */
  predicate Fits(payloadLen: nat) {
    2 + payloadLen <= MAX_PACKET_LEN
  }

  lemma AnnouncedIsLengthModulo(payload: seq<Byte>, order: ByteOrder)
    ensures Announced(Packet(payload, order), order) == |payload| % 0x1_0000
  {
    var n := |payload|;
    assert n % 0x1_0000 == n % 256 + 256 * ((n / 256) % 256);
  }

  /** The byte that comes first is the low one in little-endian order and the high one in big-endian order. */
  lemma PrefixBytes(len: nat)
    requires len < 0x1_0000
    ensures var first, second := Prefix(len, LittleEndian)[0] as int, Prefix(len, LittleEndian)[1] as int;
            first + 256 * second == len && 0 <= first < 256
    ensures var first, second := Prefix(len, BigEndian)[0] as int, Prefix(len, BigEndian)[1] as int;
            256 * first + second == len && 0 <= second < 256
  {
  }

  /** Reading a packet gives back the payload, whenever the client can send it at all. */
  lemma RoundTrip(payload: seq<Byte>, order: ByteOrder)
    requires Fits(|payload|)
    ensures var wire := Packet(payload, order);
            && Announced(wire, order) == |payload| && |wire| == 2 + Announced(wire, order)
            && wire[2..2 + Announced(wire, order)] == payload
            && Announced(wire, order) < MAX_PACKET_LEN
  {
    AnnouncedIsLengthModulo(payload, order);
  }

  /** The client's `main` reads at most this many bytes of the message file. */
  function ReadFromFile(fileLen: nat): nat {
    if fileLen < MAX_PACKET_LEN - 1 then fileLen else MAX_PACKET_LEN - 1
  }

  /** It reads the whole file unless that is longer, and then as much as it may. */
  lemma ReadsAllItMay(fileLen: nat)
    ensures ReadFromFile(fileLen) <= fileLen && ReadFromFile(fileLen) <= 4095
    ensures ReadFromFile(fileLen) == fileLen || ReadFromFile(fileLen) == 4095
  {
  }

  /** That bound is one byte too generous: the packet fits exactly for files of up to 4094 bytes. */
  lemma FileFitsIff(fileLen: nat)
    ensures Fits(ReadFromFile(fileLen)) <==> fileLen <= MAX_PACKET_LEN - 2
  {
  }

  /** A file of 4095 bytes is read in full and makes a packet of 4097, one more than the buffer has. */
  lemma LongestFileDoesNotFit(payload: seq<Byte>, order: ByteOrder)
    requires |payload| == ReadFromFile(4095)
    ensures |payload| == 4095 && |Packet(payload, order)| == MAX_PACKET_LEN + 1
  {
  }

  // ---------------------------------------------------------------------------
  // Partial transfers
  // ---------------------------------------------------------------------------

  /** How much of `wanted` bytes the i-th read or write moves: any positive amount, as `cuts` has it. */
  function Moved(cuts: nat -> nat, i: nat, wanted: nat): (n: nat)
    requires wanted > 0
    ensures 0 < n <= wanted
  {
    1 + cuts(i) % wanted
  }

  /** The first half of `_send_buf_to_ds_app`: prefix and payload are put into the zeroed buffer. */
  method PackMessage(payload: seq<Byte>, order: ByteOrder) returns (writeBuffer: array<Byte>, writeBufferLen: nat)
    requires Fits(|payload|)
    ensures fresh(writeBuffer) && writeBuffer.Length == MAX_PACKET_LEN && writeBufferLen <= writeBuffer.Length
    ensures writeBuffer[..writeBufferLen] == Packet(payload, order)
  {
    writeBuffer := new Byte[MAX_PACKET_LEN](_ => 0);
    var len := |payload| % 0x1_0000;
    var prefix := Prefix(len, order);
    writeBuffer[0], writeBuffer[1] := prefix[0], prefix[1];
    writeBufferLen := 2;
    CopyIn(writeBuffer, writeBufferLen, payload);
    writeBufferLen := writeBufferLen + |payload|;
    assert writeBuffer[..2] == prefix;
  }

  /** `_send_buf_to_ds_app` after the connection is made. A payload that does not fit is reported
      instead of being copied past the end of the buffer. */
  method SendBuf(payload: seq<Byte>, order: ByteOrder, cuts: nat -> nat) returns (fits: bool, wire: seq<Byte>)
    ensures fits <==> Fits(|payload|)
    ensures fits ==> wire == Packet(payload, order)
    ensures !fits ==> wire == []
  {
    wire := [];
    fits := 2 + |payload| <= MAX_PACKET_LEN;
    if !fits {
      return;
    }
    var writeBuffer, writeBufferLen := PackMessage(payload, order);

    var sentLen, i := 0, 0;
    while sentLen != writeBufferLen
      invariant 0 <= sentLen <= writeBufferLen && wire == writeBuffer[..sentLen]
      decreases writeBufferLen - sentLen
    {
      var n := Moved(cuts, i, writeBufferLen - sentLen);
      wire := wire + writeBuffer[sentLen..sentLen + n];
      sentLen := sentLen + n;
      i := i + 1;
    }
  }

  /** `memcpy` into a buffer at an offset. */
  method CopyIn(buffer: array<Byte>, at: nat, bytes: seq<Byte>)
    requires at + |bytes| <= buffer.Length
    modifies buffer
    ensures buffer[at..at + |bytes|] == bytes
    ensures buffer[..at] == old(buffer[..at]) && buffer[at + |bytes|..] == old(buffer[at + |bytes|..])
  {
    forall k | 0 <= k < |bytes| {
      buffer[at + k] := bytes[k];
    }
  }

  /** `_read_bytes`: blocks until `readLen` bytes of the stream have been put into the buffer. */
  method ReadBytes(wire: seq<Byte>, from: nat, readLen: nat, buffer: array<Byte>, cuts: nat -> nat) returns (next: nat)
    requires from + readLen <= |wire| && readLen <= buffer.Length
    modifies buffer
    ensures next == from + readLen
    ensures buffer[..readLen] == wire[from..next] && buffer[readLen..] == old(buffer[readLen..])
  {
    var len, i := 0, 0;
    while len < readLen
      invariant 0 <= len <= readLen
      invariant buffer[..len] == wire[from..from + len] && buffer[len..] == old(buffer[len..])
      decreases readLen - len
    {
      var n := Moved(cuts, i, readLen - len);
      var piece := wire[from + len..from + len + n];
      CopyIn(buffer, len, piece);
      assert buffer[..len + n] == wire[from..from + len + n] by {
        assert buffer[..len + n] == buffer[..len] + buffer[len..len + n];
        assert wire[from..from + len + n] == wire[from..from + len] + piece;
      }
      len := len + n;
      i := i + 1;
    }
    next := from + len;
  }

  /** What the server makes of a stream. */
  datatype Message = Message(bytes: seq<Byte>, len: nat) | Overrun

  /** The callback prints the message as a C string, so a zero must follow the text inside the buffer. */
  predicate Terminated(m: Message) {
    m.Message? && m.len < |m.bytes| && m.bytes[m.len] == 0
  }

  /** The message holds the announced number of bytes of the stream and zeros behind them. */
  ghost predicate ReadFrom(m: Message, wire: seq<Byte>, order: ByteOrder)
    requires |wire| >= 2 && |wire| >= 2 + Announced(wire, order)
  {
    && (m.Overrun? <==> Announced(wire, order) > MAX_PACKET_LEN)
    && (m.Message? ==>
          && m.len == Announced(wire, order) && |m.bytes| == MAX_PACKET_LEN
          && m.bytes[..m.len] == wire[2..2 + m.len]
          && forall k :: m.len <= k < MAX_PACKET_LEN ==> m.bytes[k] == 0)
  }

  /** `_read_message` into the zeroed buffer of `_server_task`. An announced length beyond the buffer
      is reported instead of being read past its end. */
  method ReadMessage(wire: seq<Byte>, order: ByteOrder, cuts: nat -> nat) returns (m: Message)
    requires |wire| >= 2 && |wire| >= 2 + Announced(wire, order)
    ensures ReadFrom(m, wire, order)
  {
    var msg := new Byte[MAX_PACKET_LEN](_ => 0);
    var lenBuff := new Byte[2](_ => 0);
    var next := ReadBytes(wire, 0, 2, lenBuff, cuts);
    assert lenBuff[..2] == lenBuff[..] && lenBuff[..2] == wire[..2];
    var len := Announced(lenBuff[..], order);
    assert len == Announced(wire, order);
    if len > MAX_PACKET_LEN {
      return Overrun;
    }
    assert forall k :: 0 <= k < MAX_PACKET_LEN ==> msg[k] == 0;
    ghost var zeroed := msg[..];
    next := ReadBytes(wire, next, len, msg, cuts);
    assert msg[len..] == zeroed[len..];
    assert forall k :: len <= k < MAX_PACKET_LEN ==> msg[k] == msg[len..][k - len];
    m := Message(msg[..], len);
    assert msg[..][..len] == msg[..len];
  }

  /** For any sender, the text handed to the callback is terminated inside the buffer exactly when the
      announced length leaves room for the terminator. */
  lemma TerminatedIff(m: Message, wire: seq<Byte>, order: ByteOrder)
    requires |wire| >= 2 && |wire| >= 2 + Announced(wire, order) && ReadFrom(m, wire, order)
    ensures Terminated(m) <==> Announced(wire, order) < MAX_PACKET_LEN
  {
  }

  /** Everything the client can send arrives whole, terminated, under any fragmentation on both sides. */
  lemma ClientMessageArrives(payload: seq<Byte>, order: ByteOrder, m: Message)
    requires Fits(|payload|)
    requires |Packet(payload, order)| >= 2 + Announced(Packet(payload, order), order)
    requires ReadFrom(m, Packet(payload, order), order)
    ensures Terminated(m) && m.len == |payload| && m.bytes[..m.len] == payload
  {
    RoundTrip(payload, order);
  }

  /** The whole channel: a message is sent and read back, the writes and the reads being cut independently.
      The client finds out whether it fits; if it does, the server has it whole and terminated. */
  method SendAndReceive(payload: seq<Byte>, order: ByteOrder, writeCuts: nat -> nat, readCuts: nat -> nat)
    returns (fits: bool, m: Message)
    ensures fits <==> Fits(|payload|)
    ensures fits ==> Terminated(m) && m.len == |payload| && m.bytes[..m.len] == payload
  {
    var wire;
    fits, wire := SendBuf(payload, order, writeCuts);
    m := Overrun;
    if fits {
      RoundTrip(payload, order);
      m := ReadMessage(wire, order, readCuts);
      ClientMessageArrives(payload, order, m);
    }
  }
}
