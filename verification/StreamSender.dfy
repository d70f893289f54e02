/**
 The asynchronous stream sender: a loop written as callbacks. One buffer is filled again for every chunk
 and only lent to the writer, whose write goes on after the call that started it has returned.
 */
module StreamSender {
  import opened Common
  import opened Chunking

  /** What the writer has been given for its next chunk. */
  datatype Payload = Empty | Borrowed(mem: array<Byte>, len: nat) | Owned(bytes: seq<Byte>)

  /** The library's chunked response writer. Bytes of the chunk in flight are read from the payload
      when they go out, which may be any time until the write completes. */
  class ChunkWriter {
    var payload: Payload
    var inFlight: bool
    var isFinal: bool
    var partial: seq<Byte>
    var wire: seq<seq<Byte>>
    var closeConnection: bool

    constructor ()
      ensures Idle() && wire == [] && !isFinal && !closeConnection
    {
      payload := Empty;
      inFlight, isFinal, closeConnection := false, false, false;
      partial, wire := [], [];
    }

    predicate Idle()
      reads this
    {
      !inFlight && partial == []
    }

    /** The bytes the payload stands for right now. */
    function Load(): seq<Byte>
      reads this, if payload.Borrowed? then {payload.mem} else {}
    {
      match payload
      case Empty => []
      case Borrowed(mem, len) => if len <= mem.Length then mem[..len] else []
      case Owned(bytes) => bytes
    }

    /** True while a write in flight may still read `mem`. */
    predicate Lends(mem: array<Byte>)
      reads this
    {
      inFlight && payload.Borrowed? && payload.mem == mem
    }

    method Clear()
      requires !inFlight
      modifies this`payload
      ensures payload == Empty
    {
      payload := Empty;
    }

    method WriteNoCopy(mem: array<Byte>, len: nat)
      requires payload.Empty? && len <= mem.Length
      modifies this`payload
      ensures payload == Borrowed(mem, len)
    {
      payload := Borrowed(mem, len);
    }

    method Write(mem: array<Byte>, len: nat)
      requires payload.Empty? && len <= mem.Length
      modifies this`payload
      ensures payload == Owned(mem[..len])
    {
      payload := Owned(mem[..len]);
    }

    method SendChunk()
      requires Idle()
      modifies this`inFlight
      ensures inFlight
    {
      inFlight := true;
    }

    method SendFinalChunk()
      requires Idle()
      modifies this`inFlight, this`isFinal
      ensures inFlight && isFinal
    {
      inFlight, isFinal := true, true;
    }

    /** Some more bytes of the chunk in flight go out, as the payload has them now. */
    method Transmit(n: nat)
      requires inFlight && |partial| + n <= |Load()|
      modifies this`partial
      ensures partial == old(partial) + old(Load()[|partial|..|partial| + n])
    {
      partial := partial + Load()[|partial|..|partial| + n];
    }

    /** The whole chunk goes out, in pieces of any size. */
    method TransmitAll()
      requires inFlight && partial <= Load()
      modifies this`partial
      ensures partial == Load() == old(Load())
    {
      while |partial| < |Load()|
        invariant inFlight && partial <= Load()
        decreases |Load()| - |partial|
      {
        var n: nat :| 1 <= n <= |Load()| - |partial|;
        Transmit(n);
      }
    }

    /** The write completes. */
    method Complete()
      requires inFlight && partial == Load()
      modifies this`inFlight, this`partial, this`wire
      ensures Idle() && wire == old(wire) + [old(partial)]
    {
      inFlight := false;
      wire := wire + [partial];
      partial := [];
    }

    /** The write fails after some prefix of the chunk. */
    method Fail()
      requires inFlight && partial <= Load()
      modifies this`inFlight, this`partial
      ensures !inFlight && old(partial) <= partial <= Load()
    {
      var n: nat :| n <= |Load()| - |partial|;
      Transmit(n);
      inFlight := false;
    }
  }

  /** When the finalizer was called: how much of the stream was still to be read, and how many chunks were out. */
  datatype Moment = Moment(success: bool, unread: nat, chunksOut: nat)

  /** The finalizer, which for a temporary file removes it. */
  class Finalizer {
    var calls: seq<bool>
    var files: Files
    const temporary: Option<string>
    ghost var moments: seq<Moment>

    constructor (files: Files, temporary: Option<string>)
      ensures calls == [] && moments == [] && this.files == files && this.temporary == temporary
    {
      calls := [];
      moments := [];
      this.files := files;
      this.temporary := temporary;
    }

    function Removed(fs: Files): Files {
      if temporary.Some? then fs - {temporary.value} else fs
    }

    method Call(success: bool, ghost unread: nat, ghost chunksOut: nat)
      modifies this
      ensures calls == old(calls) + [success] && files == Removed(old(files))
      ensures moments == old(moments) + [Moment(success, unread, chunksOut)]
    {
      calls := calls + [success];
      moments := moments + [Moment(success, unread, chunksOut)];
      if temporary.Some? {
        files := files - {temporary.value};
      }
    }
  }

  class ResponseStreamSender {
    var writer: ChunkWriter?
    var stream: seq<Byte>
    const finalizer: Finalizer
    const buf: array<Byte>

    constructor (writer: ChunkWriter, stream: seq<Byte>, finalizer: Finalizer)
      ensures this.writer == writer && this.stream == stream && this.finalizer == finalizer
      ensures fresh(buf) && buf.Length == CHUNK_SIZE
    {
      this.writer := writer;
      this.stream := stream;
      this.finalizer := finalizer;
      buf := new Byte[CHUNK_SIZE];
    }

    /** `read_all`: fills the buffer as far as the stream goes. The buffer must not be on loan. */
    method ReadAll() returns (len: nat)
      requires writer != null && !writer.Lends(buf)
      modifies this`stream, buf
      ensures len == if |old(stream)| < buf.Length then |old(stream)| else buf.Length
      ensures buf[..len] == old(stream)[..len] && stream == old(stream)[len..]
    {
      len := 0;
      while len < buf.Length && |stream| > 0
        invariant len <= buf.Length && len <= |old(stream)|
        invariant buf[..len] == old(stream)[..len] && stream == old(stream)[len..]
      {
        buf[len] := stream[0];
        stream := stream[1..];
        len := len + 1;
      }
    }

    /** One callback. `failed` is the outcome of the write before it. */
    method HandleWrite(failed: bool)
      requires writer != null && buf.Length == CHUNK_SIZE
      requires if failed then !writer.inFlight else writer.Idle()
      modifies this, buf, writer, finalizer
      ensures failed ==>
                writer == old(writer) && stream == old(stream) && buf[..] == old(buf[..])
                && writer.closeConnection && finalizer.calls == old(finalizer.calls) + [false]
                && old(writer).wire == old(writer.wire) && old(writer).partial == old(writer.partial)
                && old(writer).isFinal == old(writer.isFinal) && !old(writer).inFlight
                && old(writer).payload == old(writer.payload)
                && finalizer.files == finalizer.Removed(old(finalizer.files))
                && finalizer.moments == old(finalizer.moments) + [Moment(false, |stream|, |writer.wire|)]
      ensures !failed && |old(stream)| >= CHUNK_SIZE ==>
                writer == old(writer) && writer.payload == Borrowed(buf, CHUNK_SIZE)
                && buf[..] == old(stream)[..CHUNK_SIZE] && stream == old(stream)[CHUNK_SIZE..]
                && writer.inFlight && writer.partial == []
                && finalizer.calls == old(finalizer.calls) && finalizer.files == old(finalizer.files)
                && finalizer.moments == old(finalizer.moments)
                && writer.isFinal == old(writer.isFinal)
      ensures !failed && |old(stream)| < CHUNK_SIZE ==>
                writer == null && stream == []
                && (old(writer).payload == Owned(old(stream)) || (old(stream) == [] && old(writer).payload == Empty))
                && old(writer).inFlight && old(writer).isFinal && old(writer).partial == []
                && finalizer.calls == old(finalizer.calls) + [true]
                && finalizer.files == finalizer.Removed(old(finalizer.files))
                && finalizer.moments == old(finalizer.moments) + [Moment(true, 0, |old(writer).wire|)]
      ensures old(writer).wire == old(writer.wire)
      ensures !failed ==> old(writer).closeConnection == old(writer.closeConnection)
    {
      if !failed {
        var len := ReadAll();
        writer.Clear();
        if len > 0 {
          if buf.Length == len {
            writer.WriteNoCopy(buf, len);
            assert buf[..len] == buf[..];
            writer.SendChunk();
          } else {
            writer.Write(buf, len);
            assert old(stream)[..len] == old(stream);
            writer.SendFinalChunk();
            ghost var chunksOut := |writer.wire|;
            writer := null;
            finalizer.Call(true, |stream|, chunksOut);
          }
        } else {
          writer.SendFinalChunk();
          ghost var chunksOut := |writer.wire|;
          writer := null;
          finalizer.Call(true, |stream|, chunksOut);
        }
      } else {
        writer.closeConnection := true;
        finalizer.Call(false, |stream|, |writer.wire|);
      }
    }
  }

  /** Memory given back is used by someone else. */
  method Reuse(mem: array<Byte>, other: nat -> Byte)
    modifies mem
  {
    forall i | 0 <= i < mem.Length {
      mem[i] := other(i);
    }
  }

  /** Chunk `k` of `content` is in flight, borrowed from the buffer; everything before it went out. */
  ghost predicate Sending(sender: ResponseStreamSender, w: ChunkWriter, content: seq<Byte>, k: nat)
    reads sender, w, sender.buf
  {
    && sender.writer == w && sender.buf.Length == CHUNK_SIZE
    && w.inFlight && w.payload == Borrowed(sender.buf, CHUNK_SIZE) && w.partial == []
    && !w.isFinal && !w.closeConnection
    && k < |Chunks(content)| && w.wire == Chunks(content)[..k]
    && Chunks(content) == w.wire + Chunks(sender.buf[..] + sender.stream)
  }

  /** The write of chunk `k` failed and the sender gave up. */
  ghost predicate Failed(sender: ResponseStreamSender, w: ChunkWriter, content: seq<Byte>, k: nat)
    reads sender, w
  {
    && sender.writer == w && !w.inFlight && !w.isFinal && w.closeConnection
    && k < |Chunks(content)| && w.wire == Chunks(content)[..k] && w.partial <= Chunks(content)[k]
  }

  /** The last chunk is in flight, owned by the writer, and the sender has let go of it. */
  ghost predicate Finishing(sender: ResponseStreamSender, w: ChunkWriter, content: seq<Byte>, k: nat)
    reads sender, w, if w.payload.Borrowed? then {w.payload.mem} else {}
  {
    && sender.writer == null && w.inFlight && w.isFinal && w.partial == [] && !w.closeConnection
    && !w.payload.Borrowed?
    && k == FullChunks(content) && |Chunks(content)| == k + 1
    && w.wire == Chunks(content)[..k] && w.Load() == Chunks(content)[k]
  }

  /** The finalizer has not been called yet. */
  ghost predicate NotTold(f: Finalizer, files: Files)
    reads f
  {
    f.calls == [] && f.moments == [] && f.files == files
  }

  /** The finalizer has been called once, at this moment, and has done its work. */
  ghost predicate ToldOnce(f: Finalizer, moment: Moment, files: Files)
    reads f
  {
    f.calls == [moment.success] && f.moments == [moment] && f.files == f.Removed(files)
  }

  /** A callback after a success, with `k` chunks on the wire. */
  method Continue(sender: ResponseStreamSender, w: ChunkWriter, ghost content: seq<Byte>, ghost k: nat,
      ghost files: Files)
    requires sender.writer == w && sender.buf.Length == CHUNK_SIZE && w.Idle() && !w.isFinal && !w.closeConnection
    requires Chunks(content) == w.wire + Chunks(sender.stream) && |w.wire| == k
    requires NotTold(sender.finalizer, files)
    modifies sender, sender.buf, w, sender.finalizer
    ensures if k < FullChunks(content)
            then Sending(sender, w, content, k) && NotTold(sender.finalizer, files)
            else Finishing(sender, w, content, k) && ToldOnce(sender.finalizer, Moment(true, 0, k), files)
  {
    ghost var rest := sender.stream;
    ChunksAreContent(content);
    ChunksAreContent(rest);
    assert Chunks(content)[k..] == Chunks(rest) && Chunks(content)[..k] == w.wire;
    assert Chunks(content)[k] == Chunks(rest)[0];
    sender.HandleWrite(false);
    if |rest| >= CHUNK_SIZE {
      assert rest == sender.buf[..] + sender.stream;
    }
  }

  /** One write in flight runs to its end, and its callback is called. */
  method Advance(sender: ResponseStreamSender, w: ChunkWriter, fail: bool, ghost content: seq<Byte>, ghost k: nat,
      ghost files: Files)
    requires Sending(sender, w, content, k) && NotTold(sender.finalizer, files)
    modifies sender, sender.buf, w, sender.finalizer
    ensures if fail then Failed(sender, w, content, k)
                         && ToldOnce(sender.finalizer, Moment(false, |sender.stream|, k), files)
            else if k + 1 < FullChunks(content)
            then Sending(sender, w, content, k + 1) && NotTold(sender.finalizer, files)
            else Finishing(sender, w, content, k + 1) && ToldOnce(sender.finalizer, Moment(true, 0, k + 1), files)
  {
    ChunksCons(sender.buf[..], sender.stream);
    assert Chunks(content)[k] == sender.buf[..] == w.Load();
    if fail {
      w.Fail();
      sender.HandleWrite(true);
    } else {
      w.TransmitAll();
      w.Complete();
      assert Chunks(content) == w.wire + Chunks(sender.stream);
      Continue(sender, w, content, k + 1, files);
    }
  }

  /** The end of a run: the sender's memory is used by someone else while the last chunk goes out. */
  method Conclude(sender: ResponseStreamSender, w: ChunkWriter, ghost content: seq<Byte>, ghost k: nat,
      other: nat -> Byte)
    requires Finishing(sender, w, content, k)
    modifies sender.buf, w
    ensures w.wire == Chunks(content) && w.Idle() && w.isFinal && !w.closeConnection
  {
    Reuse(sender.buf, other);
    w.TransmitAll();
    w.Complete();
    assert Chunks(content)[..k] + [Chunks(content)[k]] == Chunks(content);
  }

  /** How a run stands when `k` chunks went out: at work on chunk `k`, given up on it, or at the last chunk. */
  ghost predicate Standing(sender: ResponseStreamSender, w: ChunkWriter, content: seq<Byte>, k: nat, files: Files,
      fails: nat -> bool, again: bool)
    reads sender, w, sender.buf, sender.finalizer, if w.payload.Borrowed? then {w.payload.mem} else {}
  {
    && k <= FullChunks(content) && (forall i | 0 <= i < k :: !fails(i))
    && if again then k < FullChunks(content) && Sending(sender, w, content, k) && NotTold(sender.finalizer, files)
       else if k < FullChunks(content) then
         fails(k) && Failed(sender, w, content, k)
         && ToldOnce(sender.finalizer, Moment(false, |sender.stream|, k), files)
       else Finishing(sender, w, content, k) && ToldOnce(sender.finalizer, Moment(true, 0, k), files)
  }

  /** The callbacks, one after another, until the sender is done or has given up. */
  method Pump(sender: ResponseStreamSender, w: ChunkWriter, fails: nat -> bool, ghost content: seq<Byte>,
      ghost files: Files) returns (k: nat)
    requires Standing(sender, w, content, 0, files, fails, sender.writer != null)
    modifies sender, sender.buf, w, sender.finalizer
    ensures Standing(sender, w, content, k, files, fails, false)
  {
    k := 0;
    var again := sender.writer != null;
    while again
      invariant Standing(sender, w, content, k, files, fails, again)
      decreases FullChunks(content) - k, again
    {
      var fail := fails(k);
      Advance(sender, w, fail, content, k, files);
      if fail {
        again := false;
      } else {
        k := k + 1;
        again := sender.writer != null;
      }
    }
  }

  /** A whole run: `send`, then one callback per completed write, then the final chunk. Write `k` fails iff
      `fails(k)`. The sender is gone, and its buffer reused, before the final chunk is transmitted.

      If none of the full-chunk writes fails, exactly the chunks of the content reach the wire; otherwise
      the chunks before the first failure and part of the failing one. The finalizer is called exactly
      once, with which of the two it was: after the last byte has been read and all full chunks are out, or at
      the failure. So a temporary file is removed exactly once, and not before. */
  method Run(sender: ResponseStreamSender, fails: nat -> bool, other: nat -> Byte)
    requires sender.writer != null && sender.writer.Idle() && sender.writer.wire == [] && !sender.writer.isFinal
    requires !sender.writer.closeConnection && sender.buf.Length == CHUNK_SIZE && sender.finalizer.calls == []
    requires sender.finalizer.moments == []
    modifies sender, sender.buf, sender.writer, sender.finalizer
    ensures var w, content := old(sender.writer), old(sender.stream);
            var k := FirstFailure(fails, FullChunks(content));
            if k == FullChunks(content) then
              w.wire == Chunks(content) && w.Idle() && w.isFinal && !w.closeConnection
              && ToldOnce(sender.finalizer, Moment(true, 0, k), old(sender.finalizer.files))
            else
              k < |Chunks(content)|
              && w.wire == Chunks(content)[..k] && w.partial <= Chunks(content)[k] && !w.isFinal && w.closeConnection
              && ToldOnce(sender.finalizer, Moment(false, |sender.stream|, k), old(sender.finalizer.files))
  {
    var w := sender.writer;
    ghost var content, files := sender.stream, sender.finalizer.files;
    assert Chunks(content) == [] + Chunks(content);
    Continue(sender, w, content, 0, files);
    var k := Pump(sender, w, fails, content, files);
    FirstFailureIs(fails, FullChunks(content), k);
    if sender.writer == null {
      Conclude(sender, w, content, k, other);
    }
  }

  lemma FirstFailureIs(fails: nat -> bool, n: nat, k: nat)
    requires k <= n && (forall i | 0 <= i < k :: !fails(i)) && (k < n ==> fails(k))
    ensures FirstFailure(fails, n) == k
  {
  }

  lemma PrefixOnWire(content: seq<Byte>, k: nat, partial: seq<Byte>)
    requires k < |Chunks(content)| && partial <= Chunks(content)[k]
    ensures Concat(Chunks(content)[..k]) + partial <= content
  {
    var all := Chunks(content);
    ChunksAreContent(content);
    ConcatAppend(all[..k], all[k..]);
    assert all == all[..k] + all[k..];
    assert Concat(all[k..]) == all[k] + Concat(all[k + 1..]) by { assert all[k..][1..] == all[k + 1..]; }
  }
}
