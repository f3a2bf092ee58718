/**
 * The move message an in-game client sends every frame: an opcode, a
 * checksum byte, the reference frame for delta compression and three
 * delta-encoded commands, assembled in a fixed-size byte buffer.
 *
 * The writers of a 32-bit long and of a delta-encoded command, and the
 * sequence-salted checksum, belong to the message layer; they are given
 * here as a Codec of functions.
 */
module MovePackets {
  import opened Common
  import opened UserCmds

  /** The opcode of a client move message. */
  const ClcMove: byte := 2

  /** Size of the local buffer the message is assembled in. */
  const MaxMoveBytes: nat := 128

  /** The most bytes one delta-encoded command may take for the message to fit its buffer. */
  const MaxDeltaBytes: nat := 40

  /** The message-layer writers the move message is built with. */
  datatype Codec = Codec(writeLong: int -> seq<byte>,
                         writeDelta: (UserCmd, UserCmd) -> seq<byte>,
                         crcByte: (seq<byte>, int) -> byte)

  /** A long takes four bytes and a delta-encoded command at most MaxDeltaBytes. */
  ghost predicate Bounded(codec: Codec) {
    (forall x :: |codec.writeLong(x)| == 4) &&
    (forall from, to :: |codec.writeDelta(from, to)| <= MaxDeltaBytes)
  }

  /** A byte buffer filled from the front (sizebuf_t). */
  class SizeBuf {
    const data: array<byte>
    var cursize: nat

    ghost predicate Valid()
      reads this
    {
      cursize <= data.Length
    }

    constructor (maxsize: nat)
      ensures Valid() && fresh(data)
      ensures data.Length == maxsize && cursize == 0
    {
      data := new byte[maxsize];
      cursize := 0;
    }

    method WriteByte(c: byte)
      requires Valid() && cursize < data.Length
      modifies this, data
      ensures Valid()
      ensures cursize == old(cursize) + 1
      ensures data[..cursize] == old(data[..cursize]) + [c]
    {
      data[cursize] := c;
      cursize := cursize + 1;
    }

    method Write(bytes: seq<byte>)
      requires Valid() && cursize + |bytes| <= data.Length
      modifies this, data
      ensures Valid()
      ensures cursize == old(cursize) + |bytes|
      ensures data[..cursize] == old(data[..cursize]) + bytes
    {
      var i := 0;
      while i < |bytes|
        invariant 0 <= i <= |bytes|
        invariant cursize == old(cursize) + i
        invariant data[..cursize] == old(data[..cursize]) + bytes[..i]
      {
        data[cursize] := bytes[i];
        cursize := cursize + 1;
        i := i + 1;
      }
    }
  }

  /** The three commands, each delta-encoded against the one before it, the oldest against the all-zero command. */
  function Deltas(codec: Codec, oldest: UserCmd, previous: UserCmd, current: UserCmd): seq<byte> {
    codec.writeDelta(NullCmd, oldest) + codec.writeDelta(oldest, previous) + codec.writeDelta(previous, current)
  }

  /** The move message for outgoing sequence number `sequence`. */
  function MovePacket(codec: Codec, reference: int, oldest: UserCmd, previous: UserCmd, current: UserCmd,
                      sequence: int): (p: seq<byte>)
    ensures |p| >= 2 && p[0] == ClcMove
    // the checksum covers exactly the bytes after it
    ensures p[1] == codec.crcByte(p[2..], sequence)
    ensures p[2..] == codec.writeLong(reference) + Deltas(codec, oldest, previous, current)
  {
    var body := codec.writeLong(reference) + Deltas(codec, oldest, previous, current);
    [ClcMove, codec.crcByte(body, sequence)] + body
  }

  /**
   * The layout of the move message: opcode, then the checksum of exactly the
   * bytes after it, then the reference frame and the three deltas in order;
   * and it fits the buffer.
   */
  lemma MovePacketLayout(codec: Codec, reference: int, oldest: UserCmd, previous: UserCmd, current: UserCmd,
                         sequence: int)
    requires Bounded(codec)
    ensures var p := MovePacket(codec, reference, oldest, previous, current, sequence);
            6 <= |p| <= MaxMoveBytes &&
            p[0] == ClcMove &&
            p[1] == codec.crcByte(p[2..], sequence) &&
            p[2..6] == codec.writeLong(reference) &&
            p[6..] == Deltas(codec, oldest, previous, current)
  {
    var p := MovePacket(codec, reference, oldest, previous, current, sequence);
    assert |codec.writeLong(reference)| == 4;
    assert |codec.writeDelta(NullCmd, oldest)| <= MaxDeltaBytes;
    assert |codec.writeDelta(oldest, previous)| <= MaxDeltaBytes;
    assert |codec.writeDelta(previous, current)| <= MaxDeltaBytes;
  }

  /** Appends the reference frame and the three deltas to `buf`. */
  method WriteBody(buf: SizeBuf, codec: Codec, reference: int, oldest: UserCmd, previous: UserCmd, current: UserCmd)
    requires buf.Valid() && Bounded(codec) && buf.cursize + 4 + 3 * MaxDeltaBytes <= buf.data.Length
    modifies buf, buf.data
    ensures buf.Valid()
    ensures buf.data[..buf.cursize] == old(buf.data[..buf.cursize]) + codec.writeLong(reference) +
                                       Deltas(codec, oldest, previous, current)
  {
    ghost var before := buf.data[..buf.cursize];
    var long, first, second, third := codec.writeLong(reference), codec.writeDelta(NullCmd, oldest),
                                      codec.writeDelta(oldest, previous), codec.writeDelta(previous, current);
    assert |long| == 4 && |first| <= MaxDeltaBytes && |second| <= MaxDeltaBytes && |third| <= MaxDeltaBytes;
    buf.Write(long);
    buf.Write(first);
    buf.Write(second);
    assert buf.data[..buf.cursize] == before + long + first + second;
    buf.Write(third);
    assert buf.data[..buf.cursize] == before + long + (first + second + third);
  }

  /**
   * Assembles the move message as the client does: opcode, a reserved
   * checksum byte, the reference frame and the three deltas, then the
   * checksum over the bytes after the reserved one is patched in.
   */
  method BuildMovePacket(codec: Codec, reference: int, oldest: UserCmd, previous: UserCmd, current: UserCmd,
                         sequence: int) returns (packet: seq<byte>)
    requires Bounded(codec)
    ensures packet == MovePacket(codec, reference, oldest, previous, current, sequence)
  {
    var buf := new SizeBuf(MaxMoveBytes);
    buf.WriteByte(ClcMove);
    var checksumIndex := buf.cursize;
    buf.WriteByte(0);
    WriteBody(buf, codec, reference, oldest, previous, current);
    ghost var body := codec.writeLong(reference) + Deltas(codec, oldest, previous, current);
    assert buf.data[..buf.cursize] == [ClcMove, 0] + body;
    assert buf.data[checksumIndex + 1 .. buf.cursize] == body;
    buf.data[checksumIndex] := codec.crcByte(buf.data[checksumIndex + 1 .. buf.cursize], sequence);
    packet := buf.data[..buf.cursize];
    assert packet == [ClcMove, codec.crcByte(body, sequence)] + body;
  }
}
