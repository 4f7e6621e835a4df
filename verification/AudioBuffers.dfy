/**
 The audio channel of a session (audio.go): two bounded buffers, cross-wired between the
 session's side and the transport's side.

 The ring buffer comes from a library: it is taken to be a bounded FIFO with close and
 reset that after close still hands out what it holds, then end of file, and refuses
 writes. A method here does what a call does until it has to wait; the call that waits
 does it again when there is room, or something to read.
 */
module AudioBuffers {
  import opened Frames

  datatype ReadResult = WouldBlock | Eof | Data(bytes: Bytes)

  /** How a write stands: everything is written, it waits for room, or the buffer is closed. */
  datatype WriteStatus = Written | Waits | ClosedError

  function WriteOutcome(closed: bool, capacity: nat, held: nat, n: nat): WriteStatus {
    if closed then ClosedError else if n <= capacity - held then Written else Waits
  }

  function Fits(free: int, n: nat): nat {
    if free <= 0 then 0 else if n <= free then n else free
  }

  class RingBuffer {
    const capacity: nat
    var data: Bytes
    var closed: bool

    ghost predicate Valid()
      reads this
    {
      |data| <= capacity
    }

    constructor (capacity: nat)
      ensures Valid() && this.capacity == capacity && !closed && data == []
    {
      this.capacity := capacity;
      data, closed := [], false;
    }

    method Write(p: Bytes) returns (n: nat, status: WriteStatus)
      requires Valid()
      modifies this
      ensures Valid() && closed == old(closed)
      ensures n == if closed then 0 else Fits(capacity - |old(data)|, |p|)
      ensures status == WriteOutcome(closed, capacity, |old(data)|, |p|)
      ensures n <= |p| && data == old(data) + p[..n]
      ensures status.ClosedError? <==> closed
      ensures status.Written? <==> !closed && n == |p|
      ensures status.Waits? ==> |data| == capacity
      ensures closed ==> n == 0
    {
      if closed {
        return 0, ClosedError;
      }
      n := Fits(capacity - |data|, |p|);
      status := if n == |p| then Written else Waits;
      data := data + p[..n];
    }

    method Read(size: nat) returns (r: ReadResult)
      requires Valid()
      modifies this
      ensures Valid() && closed == old(closed)
      ensures r.WouldBlock? <==> old(data) == [] && !closed
      ensures r.Eof? <==> old(data) == [] && closed
      ensures r.Data? ==> |r.bytes| == Fits(size, |old(data)|) && r.bytes + data == old(data)
      ensures r.Data? ==> |r.bytes| <= size && (|r.bytes| == size || data == [])
      ensures !r.Data? ==> data == old(data)
    {
      if data == [] {
        return if closed then Eof else WouldBlock;
      }
      var n := Fits(size, |data|);
      r := Data(data[..n]);
      data := data[n..];
    }

    /** Whether a closed buffer is open again after a reset is the library's affair. */
    method Reset()
      requires Valid()
      modifies this
      ensures Valid() && data == []
    {
      data := [];
    }

    method CloseWithEof()
      requires Valid()
      modifies this
      ensures Valid() && closed && data == old(data)
    {
      closed := true;
    }
  }

  class AudioChannelSide {
    const reader: RingBuffer
    const writer: RingBuffer

    ghost predicate Valid()
      reads this, reader, writer
    {
      reader != writer && reader.Valid() && writer.Valid()
    }

    constructor (reader: RingBuffer, writer: RingBuffer)
      ensures this.reader == reader && this.writer == writer
    {
      this.reader := reader;
      this.writer := writer;
    }

    method Close()
      requires Valid()
      modifies reader, writer
      ensures Valid() && reader.closed && writer.closed
      ensures reader.data == old(reader.data) && writer.data == old(writer.data)
    {
      writer.CloseWithEof();
      reader.CloseWithEof();
    }

    method Read(size: nat) returns (r: ReadResult)
      requires Valid()
      modifies reader
      ensures Valid() && reader.closed == old(reader.closed)
      ensures r.Eof? <==> old(reader.data) == [] && reader.closed
      ensures r.Data? ==> |r.bytes| == Fits(size, |old(reader.data)|) && r.bytes + reader.data == old(reader.data)
      ensures r.Data? ==> |r.bytes| <= size && (|r.bytes| == size || reader.data == [])
      ensures !r.Data? ==> reader.data == old(reader.data) == []
    {
      r := reader.Read(size);
    }

    method Write(p: Bytes) returns (n: nat, status: WriteStatus)
      requires Valid()
      modifies writer
      ensures Valid() && writer.closed == old(writer.closed)
      ensures status == WriteOutcome(writer.closed, writer.capacity, |old(writer.data)|, |p|)
      ensures n == if writer.closed then 0 else Fits(writer.capacity - |old(writer.data)|, |p|)
      ensures n <= |p| && writer.data == old(writer.data) + p[..n]
      ensures status.ClosedError? <==> writer.closed
      ensures status.Written? <==> !writer.closed && n == |p|
      ensures status.Waits? ==> |writer.data| == writer.capacity
      ensures writer.closed ==> n == 0
    {
      n, status := writer.Write(p);
    }

    /** Length and Reset are two calls on the buffer; run together they report exactly
        what they remove, and the other direction is untouched. */
    method ClearReadBuffer() returns (n: nat)
      requires Valid()
      modifies reader
      ensures Valid() && n == |old(reader.data)| && reader.data == []
    {
      n := |reader.data|;
      reader.Reset();
    }
  }

  /** What one side writes the other side reads. */
  method NewAudioChannel(audioBufferSize: nat) returns (session: AudioChannelSide, transport: AudioChannelSide)
    ensures session.Valid() && transport.Valid()
    ensures session.reader == transport.writer && session.writer == transport.reader
    ensures fresh(session.reader) && fresh(session.writer)
    ensures session.reader.capacity == audioBufferSize && session.writer.capacity == audioBufferSize
    ensures session.reader.data == [] && session.writer.data == []
    ensures !session.reader.closed && !session.writer.closed
  {
    var transportBuffer := new RingBuffer(audioBufferSize);
    var sessionBuffer := new RingBuffer(audioBufferSize);
    transport := new AudioChannelSide(transportBuffer, sessionBuffer);
    session := new AudioChannelSide(sessionBuffer, transportBuffer);
  }
}
